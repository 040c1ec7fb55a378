/** Which outline edges of a building get a facade texture, in the order the builder visits
    them (LowDetailBuilder.Build and BuildTextures), and the atlas rectangle planned for each. */
module FacadeSlots {
  import opened BuildingData

  /** The second endpoint of outline edge f: the next point, wrapping to 0 after the last. */
  function EndpointB(f: int, n: int): (r: int)
    requires 0 <= f < n
    ensures 0 <= r < n
    ensures r == (f + 1) % n
  {
    if f < n - 1 then f + 1 else 0
  }

  /** A facade: edge f of volume v, the plan points at its ends and the first floor it shows. */
  datatype Edge = Edge(volume: nat, f: nat, pointA: int, pointB: int, floorBase: int)

  predicate EdgeExists(d: Data, v: int, f: int) {
    0 <= v < |d.plan.volumes| && 0 <= f < |d.plan.volumes[v].points|
  }

  function EdgeAt(d: Data, v: nat, f: nat): (e: Edge)
    requires WellFormed(d) && EdgeExists(d, v, f)
    ensures e.volume == v && e.f == f
    ensures 0 <= e.pointA < |d.plan.points| && 0 <= e.pointB < |d.plan.points|
  {
    var volume := d.plan.volumes[v];
    assert VolumeFits(d.plan, volume);
    var a := volume.points[f];
    var b := volume.points[EndpointB(f, |volume.points|)];
    Edge(v, f, a, b, d.plan.facadeFloorHeight(v, a, b))
  }

  /** The edge names a volume and two plan points of the building. */
  predicate Addressable(d: Data, x: Edge) {
    x.volume < |d.plan.volumes| && 0 <= x.pointA < |d.plan.points| && 0 <= x.pointB < |d.plan.points|
  }

  predicate AllAddressable(d: Data, es: seq<Edge>) {
    forall i :: 0 <= i < |es| ==> Addressable(d, es[i])
  }

  /** The builder's skip filter: the edge is flagged for rendering and is not covered by a
      taller neighbour, that is, at least one floor of the volume lies above its base. */
  predicate IsVisible(d: Data, v: nat, f: nat)
    requires WellFormed(d) && EdgeExists(d, v, f)
  {
    assert VolumeFits(d.plan, d.plan.volumes[v]);
    d.plan.volumes[v].renderFacade[f]
    && d.plan.volumes[v].numberOfFloors - EdgeAt(d, v, f).floorBase >= 1
  }

  /** The visible edges among the first k edges of volume v. */
  function EdgesOfVolume(d: Data, v: nat, k: nat): (r: seq<Edge>)
    requires WellFormed(d) && v < |d.plan.volumes| && k <= |d.plan.volumes[v].points|
  {
    if k == 0 then []
    else EdgesOfVolume(d, v, k - 1) + (if IsVisible(d, v, k - 1) then [EdgeAt(d, v, k - 1)] else [])
  }

  /** The visible edges of the first v volumes. */
  function EdgesBefore(d: Data, v: nat): (r: seq<Edge>)
    requires WellFormed(d) && v <= |d.plan.volumes|
  {
    if v == 0 then []
    else EdgesBefore(d, v - 1) + EdgesOfVolume(d, v - 1, |d.plan.volumes[v - 1].points|)
  }

  /** Every visible edge of the building, volume by volume and edge by edge. */
  function VisibleEdges(d: Data): (r: seq<Edge>)
    requires WellFormed(d)
  {
    EdgesBefore(d, |d.plan.volumes|)
  }

  /** The visible edges among the first k edges of volume v name plan points and come from
      volume v, in edge order before k. */
  lemma {:induction false} EdgesOfVolumeShape(d: Data, v: nat, k: nat)
    requires WellFormed(d) && v < |d.plan.volumes| && k <= |d.plan.volumes[v].points|
    ensures AllAddressable(d, EdgesOfVolume(d, v, k))
    ensures forall i :: 0 <= i < |EdgesOfVolume(d, v, k)| ==> EdgesOfVolume(d, v, k)[i].volume == v && EdgesOfVolume(d, v, k)[i].f < k
  {
    if k > 0 {
      EdgesOfVolumeShape(d, v, k - 1);
    }
  }

  lemma {:induction false} EdgesBeforeShape(d: Data, v: nat)
    requires WellFormed(d) && v <= |d.plan.volumes|
    ensures AllAddressable(d, EdgesBefore(d, v))
    ensures forall i :: 0 <= i < |EdgesBefore(d, v)| ==> EdgesBefore(d, v)[i].volume < v
  {
    if v > 0 {
      EdgesBeforeShape(d, v - 1);
      EdgesOfVolumeShape(d, v - 1, |d.plan.volumes[v - 1].points|);
    }
  }

  /** (v, f) comes strictly before (v', f') in the builder's visiting order. */
  predicate Before(a: Edge, b: Edge) {
    a.volume < b.volume || (a.volume == b.volume && a.f < b.f)
  }

  predicate StrictlyOrdered(es: seq<Edge>) {
    forall i, j :: 0 <= i < j < |es| ==> Before(es[i], es[j])
  }

  lemma OrderedConcat(a: seq<Edge>, b: seq<Edge>)
    requires StrictlyOrdered(a) && StrictlyOrdered(b)
    requires forall x, y :: x in a && y in b ==> Before(x, y)
    ensures StrictlyOrdered(a + b)
  {
    forall i, j | 0 <= i < j < |a + b| ensures Before((a + b)[i], (a + b)[j]) {
      if j < |a| {
        assert (a + b)[i] == a[i] && (a + b)[j] == a[j];
      } else if i >= |a| {
        assert (a + b)[i] == b[i - |a|] && (a + b)[j] == b[j - |a|];
      } else {
        assert (a + b)[i] in a && (a + b)[j] in b;
      }
    }
  }

  lemma {:induction false} EdgesOfVolumeOrdered(d: Data, v: nat, k: nat)
    requires WellFormed(d) && v < |d.plan.volumes| && k <= |d.plan.volumes[v].points|
    ensures StrictlyOrdered(EdgesOfVolume(d, v, k))
  {
    if k > 0 {
      EdgesOfVolumeOrdered(d, v, k - 1);
      EdgesOfVolumeShape(d, v, k - 1);
      OrderedConcat(EdgesOfVolume(d, v, k - 1), if IsVisible(d, v, k - 1) then [EdgeAt(d, v, k - 1)] else []);
    }
  }

  lemma {:induction false} EdgesBeforeOrdered(d: Data, v: nat)
    requires WellFormed(d) && v <= |d.plan.volumes|
    ensures StrictlyOrdered(EdgesBefore(d, v))
  {
    if v > 0 {
      EdgesBeforeOrdered(d, v - 1);
      EdgesOfVolumeOrdered(d, v - 1, |d.plan.volumes[v - 1].points|);
      EdgesBeforeShape(d, v - 1);
      EdgesOfVolumeShape(d, v - 1, |d.plan.volumes[v - 1].points|);
      OrderedConcat(EdgesBefore(d, v - 1), EdgesOfVolume(d, v - 1, |d.plan.volumes[v - 1].points|));
    }
  }

  lemma {:induction false} EdgesOfVolumeComplete(d: Data, v: nat, k: nat, f: nat)
    requires WellFormed(d) && v < |d.plan.volumes| && f < k <= |d.plan.volumes[v].points|
    ensures IsVisible(d, v, f) ==> EdgeAt(d, v, f) in EdgesOfVolume(d, v, k)
  {
    if f < k - 1 {
      EdgesOfVolumeComplete(d, v, k - 1, f);
    }
  }

  lemma {:induction false} EdgesBeforeComplete(d: Data, v: nat, w: nat, f: nat)
    requires WellFormed(d) && w < v <= |d.plan.volumes| && EdgeExists(d, w, f)
    ensures IsVisible(d, w, f) ==> EdgeAt(d, w, f) in EdgesBefore(d, v)
  {
    if IsVisible(d, w, f) {
      var x := EdgeAt(d, w, f);
      var head := EdgesBefore(d, v - 1);
      var tail := EdgesOfVolume(d, v - 1, |d.plan.volumes[v - 1].points|);
      assert EdgesBefore(d, v) == head + tail;
      if w < v - 1 {
        EdgesBeforeComplete(d, v - 1, w, f);
        assert x in head;
      } else {
        EdgesOfVolumeComplete(d, w, |d.plan.volumes[w].points|, f);
        assert x in tail;
      }
    }
  }

  /** Every listed edge is the record of a visible outline edge. */
  predicate AllVisible(d: Data, es: seq<Edge>)
    requires WellFormed(d)
  {
    forall i :: 0 <= i < |es| ==>
      EdgeExists(d, es[i].volume, es[i].f) && es[i] == EdgeAt(d, es[i].volume, es[i].f) && IsVisible(d, es[i].volume, es[i].f)
  }

  lemma AllVisibleConcat(d: Data, a: seq<Edge>, b: seq<Edge>)
    requires WellFormed(d) && AllVisible(d, a) && AllVisible(d, b)
    ensures AllVisible(d, a + b)
  {
    forall i | 0 <= i < |a + b|
      ensures EdgeExists(d, (a + b)[i].volume, (a + b)[i].f) && (a + b)[i] == EdgeAt(d, (a + b)[i].volume, (a + b)[i].f)
              && IsVisible(d, (a + b)[i].volume, (a + b)[i].f)
    {
      if i < |a| { assert (a + b)[i] == a[i]; } else { assert (a + b)[i] == b[i - |a|]; }
    }
  }

  lemma {:induction false} EdgesOfVolumeSound(d: Data, v: nat, k: nat)
    requires WellFormed(d) && v < |d.plan.volumes| && k <= |d.plan.volumes[v].points|
    ensures AllVisible(d, EdgesOfVolume(d, v, k))
  {
    if k > 0 {
      EdgesOfVolumeSound(d, v, k - 1);
      AllVisibleConcat(d, EdgesOfVolume(d, v, k - 1), if IsVisible(d, v, k - 1) then [EdgeAt(d, v, k - 1)] else []);
    }
  }

  lemma {:induction false} EdgesBeforeSound(d: Data, v: nat)
    requires WellFormed(d) && v <= |d.plan.volumes|
    ensures AllVisible(d, EdgesBefore(d, v))
  {
    if v > 0 {
      EdgesBeforeSound(d, v - 1);
      EdgesOfVolumeSound(d, v - 1, |d.plan.volumes[v - 1].points|);
      AllVisibleConcat(d, EdgesBefore(d, v - 1), EdgesOfVolume(d, v - 1, |d.plan.volumes[v - 1].points|));
    }
  }

  /** A rectangle is planned for edge f of volume v exactly when the edge is flagged for
      rendering and at least one of the volume's floors lies above the edge's base floor;
      the rectangles follow volume order and, within a volume, edge order. */
  lemma VisibleEdgesCharacterised(d: Data, v: nat, f: nat)
    requires WellFormed(d) && EdgeExists(d, v, f)
    ensures EdgeAt(d, v, f) in VisibleEdges(d) <==>
              d.plan.volumes[v].renderFacade[f] && d.plan.volumes[v].numberOfFloors - EdgeAt(d, v, f).floorBase >= 1
    ensures StrictlyOrdered(VisibleEdges(d))
  {
    EdgesBeforeComplete(d, |d.plan.volumes|, v, f);
    EdgesBeforeOrdered(d, |d.plan.volumes|);
    EdgesBeforeSound(d, |d.plan.volumes|);
  }

  lemma {:induction false} EdgesOfVolumePrefix(d: Data, v: nat, k: nat, k': nat)
    requires WellFormed(d) && v < |d.plan.volumes| && k <= k' <= |d.plan.volumes[v].points|
    ensures EdgesOfVolume(d, v, k) <= EdgesOfVolume(d, v, k')
    decreases k' - k
  {
    if k < k' {
      EdgesOfVolumePrefix(d, v, k, k' - 1);
    }
  }

  lemma {:induction false} EdgesBeforePrefix(d: Data, v: nat, v': nat)
    requires WellFormed(d) && v <= v' <= |d.plan.volumes|
    ensures EdgesBefore(d, v) <= EdgesBefore(d, v')
    decreases v' - v
  {
    if v < v' {
      EdgesBeforePrefix(d, v, v' - 1);
    }
  }

  /** The loops that plan, paint and map the facades keep one counter of the visible edges met
      so far. At a visible edge that counter indexes the edge itself in VisibleEdges, so
      rectangle k, draw k and quad k all belong to the same edge; at any edge it is at most the
      number of visible edges. */
  lemma FacadeNumberIndexesEdge(d: Data, v: nat, f: nat)
    requires WellFormed(d) && EdgeExists(d, v, f)
    ensures |EdgesBefore(d, v)| + |EdgesOfVolume(d, v, f)| <= |VisibleEdges(d)|
    ensures IsVisible(d, v, f) ==>
              var k := |EdgesBefore(d, v)| + |EdgesOfVolume(d, v, f)|;
              k < |VisibleEdges(d)| && VisibleEdges(d)[k] == EdgeAt(d, v, f)
  {
    var n := |d.plan.volumes[v].points|;
    EdgesOfVolumePrefix(d, v, f + 1, n);
    EdgesBeforePrefix(d, v + 1, |d.plan.volumes|);
    var before := EdgesBefore(d, v);
    var inVolume := EdgesOfVolume(d, v, n);
    assert EdgesBefore(d, v + 1) == before + inVolume;
    if IsVisible(d, v, f) {
      var k := |before| + |EdgesOfVolume(d, v, f)|;
      assert inVolume[|EdgesOfVolume(d, v, f)|] == EdgeAt(d, v, f);
      assert (before + inVolume)[k] == EdgeAt(d, v, f);
    }
  }

  /** The facade rectangle the builder plans for an edge: its length and its height above the
      base floor, at PixelsPerMeter, placed at the origin for the packer. */
  function FacadeRect(d: Data, e: Engine, edge: Edge): Rect
    requires Addressable(d, edge)
  {
    var plan := d.plan;
    var volume := plan.volumes[edge.volume];
    var width := ToPixels(e.distance(plan.points[edge.pointA], plan.points[edge.pointB]));
    var height := ToPixels((volume.numberOfFloors - edge.floorBase) as real * d.floorHeight);
    if height < 0.0 then Rect(0.0, 0.0, 0.0, 0.0) else Rect(0.0, 0.0, width, height)
  }

  /** A length in metres measured in atlas pixels. */
  function ToPixels(metres: real): real {
    metres * PixelsPerMeter as real
  }

  /** The rectangle of a visible edge: 100 pixels per metre of edge length and of wall height;
      only a negative floor height collapses it to an empty rectangle. */
  lemma FacadeRectShape(d: Data, e: Engine, v: nat, f: nat)
    requires WellFormed(d) && EdgeExists(d, v, f) && IsVisible(d, v, f)
    ensures var edge := EdgeAt(d, v, f);
            var r := FacadeRect(d, e, edge);
            var floors := d.plan.volumes[v].numberOfFloors - edge.floorBase;
            r.x == 0.0 && r.y == 0.0
            && (d.floorHeight >= 0.0 ==>
                  r.width == 100.0 * e.distance(d.plan.points[edge.pointA], d.plan.points[edge.pointB])
                  && r.height == 100.0 * floors as real * d.floorHeight)
            && (d.floorHeight < 0.0 ==> r.width == 0.0 && r.height == 0.0)
  {
    var edge := EdgeAt(d, v, f);
    var floors := d.plan.volumes[v].numberOfFloors - edge.floorBase;
    assert floors >= 1;
    if d.floorHeight < 0.0 {
      assert floors as real * d.floorHeight < 0.0;
    } else {
      assert floors as real * d.floorHeight >= 0.0;
    }
  }

  /** The facts the planning loop needs about its current edge. */
  lemma VisibleStep(d: Data, e: Engine, v: nat, f: nat)
    requires WellFormed(d) && EdgeExists(d, v, f)
    ensures var volume := d.plan.volumes[v];
            var n := |volume.points|;
            var a := volume.points[f];
            var b := volume.points[if f < n - 1 then f + 1 else 0];
            var floorBase := d.plan.facadeFloorHeight(v, a, b);
            EdgeAt(d, v, f) == Edge(v, f, a, b, floorBase)
            && (IsVisible(d, v, f) <==> volume.renderFacade[f] && volume.numberOfFloors - floorBase >= 1)
            && (IsVisible(d, v, f) ==> EdgesOfVolume(d, v, f + 1) == EdgesOfVolume(d, v, f) + [EdgeAt(d, v, f)])
            && (!IsVisible(d, v, f) ==> EdgesOfVolume(d, v, f + 1) == EdgesOfVolume(d, v, f))
            && (var height := ToPixels((volume.numberOfFloors - floorBase) as real * d.floorHeight);
                FacadeRect(d, e, EdgeAt(d, v, f))
                  == if height < 0.0 then Rect(0.0, 0.0, 0.0, 0.0)
                     else Rect(0.0, 0.0, ToPixels(e.distance(d.plan.points[a], d.plan.points[b])), height))
  {
  }

  /** rects holds one facade rectangle per listed edge, in order. */
  predicate Planned(d: Data, e: Engine, rects: seq<Rect>, edges: seq<Edge>) {
    |rects| == |edges| && AllAddressable(d, edges)
    && forall k :: 0 <= k < |rects| ==> rects[k] == FacadeRect(d, e, edges[k])
  }

  lemma PlannedAppend(d: Data, e: Engine, rects: seq<Rect>, edges: seq<Edge>, r: Rect, x: Edge)
    requires Planned(d, e, rects, edges) && Addressable(d, x) && r == FacadeRect(d, e, x)
    ensures Planned(d, e, rects + [r], edges + [x])
  {
    forall k | 0 <= k < |edges + [x]| ensures Addressable(d, (edges + [x])[k]) {
      if k < |edges| { assert (edges + [x])[k] == edges[k]; }
    }
  }

  /** The body of Build's planning loop for edge f of volume v: whether the edge gets a
      facade rectangle, and that rectangle. */
  method PlanEdge(d: Data, e: Engine, v: nat, f: nat) returns (visible: bool, newFacadeRect: Rect)
    requires WellFormed(d) && EdgeExists(d, v, f)
    ensures visible == IsVisible(d, v, f)
    ensures visible ==> newFacadeRect == FacadeRect(d, e, EdgeAt(d, v, f))
  {
    VisibleStep(d, e, v, f);
    var plan := d.plan;
    var volume := plan.volumes[v];
    assert VolumeFits(plan, volume);
    var numberOfVolumePoints := |volume.points|;
    newFacadeRect := Rect(0.0, 0.0, 0.0, 0.0);
    if !volume.renderFacade[f] {
      return false, newFacadeRect;
    }
    var indexA := f;
    var indexB := if f < numberOfVolumePoints - 1 then f + 1 else 0;
    var p0 := plan.points[volume.points[indexA]];
    var p1 := plan.points[volume.points[indexB]];
    var facadeWidth := ToPixels(e.distance(p0, p1));
    var floorBase := plan.facadeFloorHeight(v, volume.points[indexA], volume.points[indexB]);
    var numberOfFloors := volume.numberOfFloors - floorBase;
    if numberOfFloors < 1 {
      return false, newFacadeRect;
    }
    var floorHeight := d.floorHeight;
    var facadeHeight := ToPixels((volume.numberOfFloors - floorBase) as real * floorHeight);
    if facadeHeight < 0.0 {
      facadeWidth := 0.0;
      facadeHeight := 0.0;
    }
    visible := true;
    newFacadeRect := Rect(0.0, 0.0, facadeWidth, facadeHeight);
  }

  /** The edge loop of one volume in Build's planning loop. */
  method PlanVolumeSlots(d: Data, e: Engine, v: nat, rects0: seq<Rect>, numberOfFacades0: nat)
    returns (rects: seq<Rect>, numberOfFacades: nat)
    requires WellFormed(d) && v < |d.plan.volumes|
    requires Planned(d, e, rects0, EdgesBefore(d, v)) && numberOfFacades0 == |rects0|
    ensures Planned(d, e, rects, EdgesBefore(d, v + 1)) && numberOfFacades == |rects|
  {
    rects, numberOfFacades := rects0, numberOfFacades0;
    ghost var edges := EdgesBefore(d, v);
    var numberOfVolumePoints := |d.plan.volumes[v].points|;
    for f := 0 to numberOfVolumePoints
      invariant edges == EdgesBefore(d, v) + EdgesOfVolume(d, v, f)
      invariant Planned(d, e, rects, edges) && numberOfFacades == |rects|
    {
      var visible, newFacadeRect := PlanEdge(d, e, v, f);
      if visible {
        PlannedAppend(d, e, rects, edges, newFacadeRect, EdgeAt(d, v, f));
        edges := edges + [EdgeAt(d, v, f)];
        rects := rects + [newFacadeRect];
        numberOfFacades := numberOfFacades + 1;
      }
    }
    assert EdgesBefore(d, v + 1) == EdgesBefore(d, v) + EdgesOfVolume(d, v, numberOfVolumePoints);
  }

  /** The planning loop of Build: one rectangle per visible edge, counted in numberOfFacades. */
  method PlanFacadeSlots(d: Data, e: Engine) returns (rects: seq<Rect>, numberOfFacades: nat)
    requires WellFormed(d)
    ensures numberOfFacades == |rects| == |VisibleEdges(d)| && AllAddressable(d, VisibleEdges(d))
    ensures forall k :: 0 <= k < |rects| ==> rects[k] == FacadeRect(d, e, VisibleEdges(d)[k])
  {
    rects := [];
    numberOfFacades := 0;
    for v := 0 to |d.plan.volumes|
      invariant Planned(d, e, rects, EdgesBefore(d, v)) && numberOfFacades == |rects|
    {
      rects, numberOfFacades := PlanVolumeSlots(d, e, v, rects, numberOfFacades);
    }
  }
}
