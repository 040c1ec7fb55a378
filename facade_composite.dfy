/** The outer loops of BuildTextures' facade pass: every volume, every outline edge, every
    floor. A rendered edge reads its slot packedTexturePositions[facadeNumber] before the
    covered-edge test, a visible edge draws its floors with the facade design its floor pattern
    names, and facadeNumber counts the visible edges. The loops are proved against the draw
    semantics of FacadePass: the pass returns normally exactly when every rendered edge finds
    its slot and every visible edge's draws exist and are accepted, and it then leaves the
    atlas painted with the draws of the visible edges in order. */
module FacadeComposite {
  import opened Wrappers
  import opened Pixels
  import opened BuildingData
  import opened AtlasContext
  import opened FacadePaint
  import opened FloorPattern
  import opened BayLayout
  import opened FacadeSlots
  import opened FacadePass

  /** The draws of floors 0 .. n - 1 of a facade with these style units, or None where a floor
      raises before it draws (its style cannot be looked up, or its layout raises). */
  function FloorsRequests(d: Data, units: seq<StyleUnit>, facadeWidth: real, floorHeight: real, n: nat): Option<seq<DrawRequest>> {
    if n == 0 then Some([])
    else
      match FloorsRequests(d, units, facadeWidth, floorHeight, n - 1)
      case None => None
      case Some(done) =>
        match FloorFacade(d, units, n - 1)
        case None => None
        case Some(facade) =>
          match FloorRequests(d, facade, facadeWidth, floorHeight, n - 1)
          case None => None
          case Some(step) => Some(done + step)
  }

  /** Floors 0 .. n - 1 draw without raising. */
  predicate FloorsAccepted(o: DrawSemantics, d: Data, units: seq<StyleUnit>, facadeWidth: real, floorHeight: real, n: nat, pos: Rect) {
    var reqs := FloorsRequests(d, units, facadeWidth, floorHeight, n);
    reqs.Some? && AllAccepted(o, reqs.value, pos)
  }

  /** The draws of the lower floors come first among the draws of more floors. */
  lemma {:induction false} FloorsRequestsPrefix(d: Data, units: seq<StyleUnit>, facadeWidth: real, floorHeight: real, i: nat, n: nat)
    requires i <= n && FloorsRequests(d, units, facadeWidth, floorHeight, n).Some?
    ensures FloorsRequests(d, units, facadeWidth, floorHeight, i).Some?
    ensures FloorsRequests(d, units, facadeWidth, floorHeight, i).value <= FloorsRequests(d, units, facadeWidth, floorHeight, n).value
    decreases n - i
  {
    if i < n {
      FloorsRequestsPrefix(d, units, facadeWidth, floorHeight, i, n - 1);
    }
  }

  /** A floor that raises stops the facade: no taller run of floors draws. */
  lemma FloorsFaultSpreads(o: DrawSemantics, d: Data, units: seq<StyleUnit>, facadeWidth: real, floorHeight: real,
                           i: nat, n: nat, pos: Rect)
    requires i <= n && !FloorsAccepted(o, d, units, facadeWidth, floorHeight, i, pos)
    ensures !FloorsAccepted(o, d, units, facadeWidth, floorHeight, n, pos)
  {
    if FloorsAccepted(o, d, units, facadeWidth, floorHeight, n, pos) {
      FloorsRequestsPrefix(d, units, facadeWidth, floorHeight, i, n);
      AllAcceptedPrefix(o, FloorsRequests(d, units, facadeWidth, floorHeight, i).value,
                        FloorsRequests(d, units, facadeWidth, floorHeight, n).value, pos);
    }
  }

  /** Floor r of a facade, drawn after floors 0 .. r - 1: its style is looked up through the
      floor pattern table and the floor is drawn with that facade design. */
  method DrawNextFloor(ctx: TextureDataContext, sources: seq<PaintSource>, d: Data, styleUnits: seq<StyleUnit>, facadeWidth: real,
                       floorHeight: real, r: nat, floorPatternSize: int, facadePatternReference: seq<int>, packedPosition: Rect,
                       ghost o: DrawSemantics, ghost a0: seq<Color32>) returns (ok: bool)
    requires ctx.Valid() && Models(o, ctx.CanvasOf(), sources)
    requires floorPatternSize == PatternSize(styleUnits, |styleUnits|) && facadePatternReference == PatternTable(styleUnits)
    requires FloorsRequests(d, styleUnits, facadeWidth, floorHeight, r).Some?
    requires Painted(ctx, o, FloorsRequests(d, styleUnits, facadeWidth, floorHeight, r).value, packedPosition, a0)
    modifies ctx.colourArray
    ensures ok <==> FloorsAccepted(o, d, styleUnits, facadeWidth, floorHeight, r + 1, packedPosition)
    ensures ok ==> Painted(ctx, o, FloorsRequests(d, styleUnits, facadeWidth, floorHeight, r + 1).value, packedPosition, a0)
  {
    // `r % floorPatternSize` raises DivideByZeroException on an empty pattern.
    if floorPatternSize == 0 {
      return false;
    }
    var modFloor := CsRem(r, floorPatternSize);
    if modFloor >= |facadePatternReference| {
      return false;
    }
    var styleId := styleUnits[facadePatternReference[modFloor]].styleId;
    if !(0 <= styleId < |d.facades|) {
      return false;
    }
    var facade := d.facades[styleId];
    assert FloorFacade(d, styleUnits, r) == Some(facade);
    ghost var done := FloorsRequests(d, styleUnits, facadeWidth, floorHeight, r).value;
    ghost var step := FloorRequests(d, facade, facadeWidth, floorHeight, r);
    if step.Some? {
      assert FloorsRequests(d, styleUnits, facadeWidth, floorHeight, r + 1) == Some(done + step.value);
      PaintThen(o, done, step.value, packedPosition, a0);
    }
    ok := DrawFloor(ctx, sources, d, facade, facadeWidth, floorHeight, r, packedPosition, o);
  }

  /** The floor loop of one facade. */
  method DrawFacade(ctx: TextureDataContext, sources: seq<PaintSource>, d: Data, styleUnits: seq<StyleUnit>, facadeWidth: real,
                    floorHeight: real, rows: nat, packedPosition: Rect, ghost o: DrawSemantics) returns (ok: bool)
    requires ctx.Valid() && Models(o, ctx.CanvasOf(), sources)
    modifies ctx.colourArray
    ensures ok <==> FloorsAccepted(o, d, styleUnits, facadeWidth, floorHeight, rows, packedPosition)
    ensures ok ==> ctx.colourArray[..] == ApplyWrites(old(ctx.colourArray[..]),
                     RunWrites(o, FloorsRequests(d, styleUnits, facadeWidth, floorHeight, rows).value, packedPosition))
  {
    var floorPatternSize, facadePatternReference := BuildPatternTable(styleUnits);
    ghost var a0 := ctx.colourArray[..];
    var r := 0;
    ok := true;
    while ok && r < rows
      invariant 0 <= r <= rows
      invariant ok ==> FloorsRequests(d, styleUnits, facadeWidth, floorHeight, r).Some?
                       && Painted(ctx, o, FloorsRequests(d, styleUnits, facadeWidth, floorHeight, r).value, packedPosition, a0)
      invariant !ok ==> r < rows && !FloorsAccepted(o, d, styleUnits, facadeWidth, floorHeight, r + 1, packedPosition)
      decreases rows - r, ok
    {
      ok := DrawNextFloor(ctx, sources, d, styleUnits, facadeWidth, floorHeight, r, floorPatternSize, facadePatternReference,
                          packedPosition, o, a0);
      if ok {
        r := r + 1;
      }
    }
    if !ok {
      FloorsFaultSpreads(o, d, styleUnits, facadeWidth, floorHeight, r + 1, rows, packedPosition);
    }
  }

  /** The draws of the facade on a visible edge: its floors above the edge's base floor, at the
      edge's length in metres, with the style units of the edge's first point. */
  function EdgeRequests(d: Data, e: Engine, edge: Edge): Option<seq<DrawRequest>>
    requires Addressable(d, edge)
  {
    var volume := d.plan.volumes[edge.volume];
    var facadeWidth := e.distance(d.plan.points[edge.pointA], d.plan.points[edge.pointB]);
    FloorsRequests(d, volume.contentsByFacade(edge.pointA), facadeWidth, d.floorHeight, Max0(volume.numberOfFloors - edge.floorBase))
  }

  predicate EdgeAccepted(o: DrawSemantics, d: Data, e: Engine, edge: Edge, pos: Rect)
    requires Addressable(d, edge)
  {
    var reqs := EdgeRequests(d, e, edge);
    reqs.Some? && AllAccepted(o, reqs.value, pos)
  }


  /** What drawing one visible edge's facade means to the loops over edges and volumes: whether
      it returns normally with the facade in a given slot, and the writes it then makes. */
  datatype EdgeSemantics = EdgeSemantics(size: int, accepts: (Edge, Rect) -> bool, writes: (Edge, Rect) -> seq<Write>)

  ghost predicate EdgesBounded(m: EdgeSemantics) {
    forall edge, pos :: WritesInBounds(m.writes(edge, pos), m.size)
  }

  /** m is the facade draw of every addressable edge under the draw semantics o. */
  ghost predicate DrawsEdges(m: EdgeSemantics, o: DrawSemantics, d: Data, e: Engine) {
    m.size == o.size && EdgesBounded(m)
    && forall edge, pos {:trigger EdgeAccepted(o, d, e, edge, pos)} :: Addressable(d, edge) ==>
         (m.accepts(edge, pos) <==> EdgeAccepted(o, d, e, edge, pos))
         && (EdgeAccepted(o, d, e, edge, pos) ==> m.writes(edge, pos) == RunWrites(o, EdgeRequests(d, e, edge).value, pos))
  }

  function EdgeSemanticsOf(o: DrawSemantics, d: Data, e: Engine): (m: EdgeSemantics)
    requires Bounded(o)
    ensures DrawsEdges(m, o, d, e)
  {
    EdgeSemantics(o.size,
      (edge, pos) => Addressable(d, edge) && EdgeAccepted(o, d, e, edge, pos),
      (edge, pos) => if Addressable(d, edge) && EdgeAccepted(o, d, e, edge, pos)
                     then RunWrites(o, EdgeRequests(d, e, edge).value, pos) else [])
  }

  /** The number of visible edges before edge f of volume v: the value of facadeNumber there. */
  function FacadeCount(d: Data, v: nat, f: nat): nat
    requires WellFormed(d) && v < |d.plan.volumes| && f <= |d.plan.volumes[v].points|
  {
    |EdgesBefore(d, v)| + |EdgesOfVolume(d, v, f)|
  }

  /** After the last edge of volume v, facadeNumber counts the visible edges of volumes 0 .. v. */
  lemma VolumeEndCount(d: Data, v: nat)
    requires WellFormed(d) && v < |d.plan.volumes|
    ensures FacadeCount(d, v, |d.plan.volumes[v].points|) == |EdgesBefore(d, v + 1)|
  {
    assert EdgesBefore(d, v + 1) == EdgesBefore(d, v) + EdgesOfVolume(d, v, |d.plan.volumes[v].points|);
  }

  /** Edge f of volume v passes without raising: a rendered edge finds its slot, and a visible
      one draws its facade into that slot. */
  predicate EdgeOk(m: EdgeSemantics, d: Data, positions: seq<Rect>, v: nat, f: nat)
    requires WellFormed(d) && EdgeExists(d, v, f)
  {
    assert VolumeFits(d.plan, d.plan.volumes[v]);
    var k := FacadeCount(d, v, f);
    d.plan.volumes[v].renderFacade[f] ==>
      k < |positions| && (IsVisible(d, v, f) ==> m.accepts(EdgeAt(d, v, f), positions[k]))
  }

  predicate VolumeOk(m: EdgeSemantics, d: Data, positions: seq<Rect>, v: nat)
    requires WellFormed(d) && v < |d.plan.volumes|
  {
    forall f :: 0 <= f < |d.plan.volumes[v].points| ==> EdgeOk(m, d, positions, v, f)
  }

  /** Edges 0 .. k - 1 of volume v pass; the edge loop's progress. */
  predicate EdgesOkUpTo(m: EdgeSemantics, d: Data, positions: seq<Rect>, v: nat, k: nat)
    requires WellFormed(d) && v < |d.plan.volumes| && k <= |d.plan.volumes[v].points|
  {
    k == 0 || (EdgesOkUpTo(m, d, positions, v, k - 1) && EdgeOk(m, d, positions, v, k - 1))
  }

  lemma {:induction false} EdgesOkUpToMeans(m: EdgeSemantics, d: Data, positions: seq<Rect>, v: nat, k: nat)
    requires WellFormed(d) && v < |d.plan.volumes| && k <= |d.plan.volumes[v].points|
    ensures EdgesOkUpTo(m, d, positions, v, k) <==> forall f :: 0 <= f < k ==> EdgeOk(m, d, positions, v, f)
  {
    if k > 0 {
      EdgesOkUpToMeans(m, d, positions, v, k - 1);
    }
  }

  /** The whole facade pass returns normally. */
  predicate PassOk(m: EdgeSemantics, d: Data, positions: seq<Rect>)
    requires WellFormed(d)
  {
    forall v :: 0 <= v < |d.plan.volumes| ==> VolumeOk(m, d, positions, v)
  }

  /** The first n visible edges draw their facades, edge k into slot k. */
  predicate PassAccepted(m: EdgeSemantics, d: Data, positions: seq<Rect>, n: nat)
    requires WellFormed(d) && n <= |VisibleEdges(d)|
  {
    n == 0
    || (PassAccepted(m, d, positions, n - 1) && n - 1 < |positions|
        && m.accepts(VisibleEdges(d)[n - 1], positions[n - 1]))
  }

  /** The writes of the facades of the first n visible edges, in order. */
  function PassWrites(m: EdgeSemantics, d: Data, positions: seq<Rect>, n: nat): (r: seq<Write>)
    requires WellFormed(d) && n <= |VisibleEdges(d)| && PassAccepted(m, d, positions, n)
    ensures EdgesBounded(m) ==> WritesInBounds(r, m.size)
  {
    if n == 0 then []
    else
      var prefix := PassWrites(m, d, positions, n - 1);
      var last := m.writes(VisibleEdges(d)[n - 1], positions[n - 1]);
      WritesInBoundsAppend(prefix, last, m.size);
      prefix + last
  }

  /** The buffer holds a0 painted with the facades of the first k visible edges. */
  ghost predicate PassPainted(ctx: TextureDataContext, m: EdgeSemantics, d: Data, k: nat, a0: seq<Color32>)
    reads ctx, ctx.colourArray
    requires WellFormed(d)
  {
    k <= |VisibleEdges(d)| && EdgesBounded(m) && |a0| == m.size
    && PassAccepted(m, d, ctx.packedTexturePositions, k)
    && ctx.colourArray[..] == ApplyWrites(a0, PassWrites(m, d, ctx.packedTexturePositions, k))
  }

  /** One visible edge more: its facade drawn into slot k appends to the pass. */
  lemma PassStep(m: EdgeSemantics, d: Data, positions: seq<Rect>, k: nat, a0: seq<Color32>)
    requires WellFormed(d) && k < |VisibleEdges(d)| && k < |positions| && EdgesBounded(m) && |a0| == m.size
    requires PassAccepted(m, d, positions, k) && m.accepts(VisibleEdges(d)[k], positions[k])
    ensures PassAccepted(m, d, positions, k + 1)
    ensures ApplyWrites(a0, PassWrites(m, d, positions, k + 1))
            == ApplyWrites(ApplyWrites(a0, PassWrites(m, d, positions, k)), m.writes(VisibleEdges(d)[k], positions[k]))
  {
    ApplyWritesAppend(a0, PassWrites(m, d, positions, k), m.writes(VisibleEdges(d)[k], positions[k]));
  }

  /** The facade of a visible edge, drawn into its slot: what m says of that edge. */
  method DrawVisibleEdge(ctx: TextureDataContext, sources: seq<PaintSource>, d: Data, e: Engine, ghost edge: Edge,
                         styleUnits: seq<StyleUnit>, facadeWidth: real, numberOfFloors: int, packedPosition: Rect,
                         ghost o: DrawSemantics, ghost m: EdgeSemantics) returns (ok: bool)
    requires Addressable(d, edge) && numberOfFloors >= 1
    requires styleUnits == d.plan.volumes[edge.volume].contentsByFacade(edge.pointA)
    requires facadeWidth == e.distance(d.plan.points[edge.pointA], d.plan.points[edge.pointB])
    requires numberOfFloors == d.plan.volumes[edge.volume].numberOfFloors - edge.floorBase
    requires ctx.Valid() && Models(o, ctx.CanvasOf(), sources) && DrawsEdges(m, o, d, e)
    modifies ctx.colourArray
    ensures ok == m.accepts(edge, packedPosition)
    ensures ok ==> ctx.colourArray[..] == ApplyWrites(old(ctx.colourArray[..]), m.writes(edge, packedPosition))
  {
    assert EdgeRequests(d, e, edge) == FloorsRequests(d, styleUnits, facadeWidth, d.floorHeight, numberOfFloors);
    ok := DrawFacade(ctx, sources, d, styleUnits, facadeWidth, d.floorHeight, numberOfFloors, packedPosition, o);
    assert ok == EdgeAccepted(o, d, e, edge, packedPosition);
  }

  /** The body of the edge loop for edge f of volume v. */
  method DrawEdge(ctx: TextureDataContext, sources: seq<PaintSource>, d: Data, e: Engine, v: nat, f: nat, facadeNumber: nat,
                  ghost o: DrawSemantics, ghost m: EdgeSemantics, ghost a0: seq<Color32>) returns (ok: bool, next: nat)
    requires WellFormed(d) && EdgeExists(d, v, f)
    requires ctx.Valid() && Models(o, ctx.CanvasOf(), sources) && DrawsEdges(m, o, d, e)
    requires facadeNumber == FacadeCount(d, v, f) && PassPainted(ctx, m, d, facadeNumber, a0)
    modifies ctx.colourArray
    ensures ok <==> EdgeOk(m, d, ctx.packedTexturePositions, v, f)
    ensures ok ==> next == FacadeCount(d, v, f + 1) && PassPainted(ctx, m, d, next, a0)
  {
    VisibleStep(d, e, v, f);
    FacadeNumberIndexesEdge(d, v, f);
    var plan := d.plan;
    var volume := plan.volumes[v];
    assert VolumeFits(plan, volume);
    var numberOfVolumePoints := |volume.points|;
    next := facadeNumber;
    if !volume.renderFacade[f] {
      return true, next;
    }
    var indexA := f;
    var indexB := if f < numberOfVolumePoints - 1 then f + 1 else 0;
    var p0 := plan.points[volume.points[indexA]];
    var p1 := plan.points[volume.points[indexB]];
    if facadeNumber >= |ctx.packedTexturePositions| {
      return false, next;
    }
    var packedPosition := ctx.packedTexturePositions[facadeNumber];
    var facadeWidth := e.distance(p0, p1);
    var floorBase := plan.facadeFloorHeight(v, volume.points[indexA], volume.points[indexB]);
    var numberOfFloors := volume.numberOfFloors - floorBase;
    if numberOfFloors < 1 {
      return true, next;
    }
    var styleUnits := volume.contentsByFacade(volume.points[indexA]);
    ghost var edge := EdgeAt(d, v, f);
    ghost var positions := ctx.packedTexturePositions;
    ghost var done := PassWrites(m, d, positions, facadeNumber);
    assert VisibleEdges(d)[facadeNumber] == edge;
    ok := DrawVisibleEdge(ctx, sources, d, e, edge, styleUnits, facadeWidth, numberOfFloors, packedPosition, o, m);
    if ok {
      PassStep(m, d, positions, facadeNumber, a0);
      next := facadeNumber + 1;
    }
  }

  /** The edge loop of volume v. */
  method DrawVolume(ctx: TextureDataContext, sources: seq<PaintSource>, d: Data, e: Engine, v: nat, facadeNumber: nat,
                    ghost o: DrawSemantics, ghost m: EdgeSemantics, ghost a0: seq<Color32>) returns (ok: bool, next: nat)
    requires WellFormed(d) && v < |d.plan.volumes|
    requires ctx.Valid() && Models(o, ctx.CanvasOf(), sources) && DrawsEdges(m, o, d, e)
    requires facadeNumber == |EdgesBefore(d, v)| && PassPainted(ctx, m, d, facadeNumber, a0)
    modifies ctx.colourArray
    ensures ok <==> VolumeOk(m, d, ctx.packedTexturePositions, v)
    ensures ok ==> next == |EdgesBefore(d, v + 1)| && PassPainted(ctx, m, d, next, a0)
  {
    var numberOfVolumePoints := |d.plan.volumes[v].points|;
    ghost var positions := ctx.packedTexturePositions;
    next := facadeNumber;
    var f := 0;
    ok := true;
    while ok && f < numberOfVolumePoints
      invariant 0 <= f <= numberOfVolumePoints
      invariant ok ==> next == FacadeCount(d, v, f) && PassPainted(ctx, m, d, next, a0)
                       && EdgesOkUpTo(m, d, positions, v, f)
      invariant !ok ==> f < numberOfVolumePoints && !EdgeOk(m, d, positions, v, f)
      decreases numberOfVolumePoints - f, ok
    {
      ok, next := DrawEdge(ctx, sources, d, e, v, f, next, o, m, a0);
      assert ctx.packedTexturePositions == positions;
      if ok {
        assert EdgesOkUpTo(m, d, positions, v, f + 1);
        f := f + 1;
      }
    }
    if ok {
      EdgesOkUpToMeans(m, d, positions, v, numberOfVolumePoints);
    }
    VolumeEndCount(d, v);
  }

  /** The facade pass of BuildTextures, with facadeNumber after it. */
  method CompositeFacades(ctx: TextureDataContext, sources: seq<PaintSource>, d: Data, e: Engine,
                          ghost o: DrawSemantics, ghost m: EdgeSemantics)
    returns (ok: bool, facadeNumber: nat)
    requires WellFormed(d) && ctx.Valid() && Models(o, ctx.CanvasOf(), sources) && DrawsEdges(m, o, d, e)
    modifies ctx.colourArray
    ensures ok <==> PassOk(m, d, ctx.packedTexturePositions)
    ensures ok ==> facadeNumber == |VisibleEdges(d)|
                   && PassAccepted(m, d, ctx.packedTexturePositions, facadeNumber)
                   && ctx.colourArray[..] == ApplyWrites(old(ctx.colourArray[..]), PassWrites(m, d, ctx.packedTexturePositions, facadeNumber))
  {
    ghost var a0 := ctx.colourArray[..];
    ghost var positions := ctx.packedTexturePositions;
    var numberOfVolumes := |d.plan.volumes|;
    facadeNumber := 0;
    var s := 0;
    ok := true;
    while ok && s < numberOfVolumes
      invariant 0 <= s <= numberOfVolumes
      invariant ok ==> facadeNumber == |EdgesBefore(d, s)| && PassPainted(ctx, m, d, facadeNumber, a0)
                       && forall w :: 0 <= w < s ==> VolumeOk(m, d, positions, w)
      invariant !ok ==> s < numberOfVolumes && !VolumeOk(m, d, positions, s)
      decreases numberOfVolumes - s, ok
    {
      ok, facadeNumber := DrawVolume(ctx, sources, d, e, s, facadeNumber, o, m, a0);
      if ok {
        s := s + 1;
      }
    }
  }
}
