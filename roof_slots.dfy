/** The roof part of the atlas plan (LowDetailBuilder.Build): one rectangle per distinct roof
    texture index, in the order the roofs first name it. */
module RoofSlots {
  import opened Pixels
  import opened BuildingData

  /** The texture indices of all roofs, roof by roof. */
  function Flatten(roofs: seq<Roof>): seq<int>
    decreases |roofs|
  {
    if |roofs| == 0 then [] else Flatten(roofs[..|roofs| - 1]) + roofs[|roofs| - 1].textureValues
  }

  /** s without repetitions: each value is kept where it first occurs. */
  function Dedup(s: seq<int>): (r: seq<int>)
    ensures forall x :: x in r <==> x in s
    decreases |s|
  {
    if |s| == 0 then []
    else
      var prefix := Dedup(s[..|s| - 1]);
      if s[|s| - 1] in prefix then prefix else prefix + [s[|s| - 1]]
  }

  predicate NoDuplicates(s: seq<int>) {
    forall i, j :: 0 <= i < j < |s| ==> s[i] != s[j]
  }

  /** The position of the first occurrence of x in s. */
  function FirstIndex(s: seq<int>, x: int): (i: nat)
    requires x in s
    ensures i < |s| && s[i] == x
    ensures forall j :: 0 <= j < i ==> s[j] != x
  {
    if s[0] == x then 0 else 1 + FirstIndex(s[1..], x)
  }

  lemma {:induction false} DedupNoDuplicates(s: seq<int>)
    ensures NoDuplicates(Dedup(s))
    decreases |s|
  {
    if |s| > 0 {
      DedupNoDuplicates(s[..|s| - 1]);
    }
  }

  lemma FirstIndexPrefix(s: seq<int>, t: seq<int>, x: int)
    requires x in s
    ensures x in s + t && FirstIndex(s + t, x) == FirstIndex(s, x)
  {
    var i := FirstIndex(s, x);
    assert (s + t)[i] == x;
    forall k | 0 <= k < i ensures (s + t)[k] != x {
      assert (s + t)[k] == s[k];
    }
  }

  /** The distinct indices appear in the order of their first occurrence. */
  lemma {:induction false} DedupFirstEncounterOrder(s: seq<int>)
    ensures forall i, j :: 0 <= i < j < |Dedup(s)| ==> FirstIndex(s, Dedup(s)[i]) < FirstIndex(s, Dedup(s)[j])
    decreases |s|
  {
    if |s| > 0 {
      var p := s[..|s| - 1];
      var last := s[|s| - 1];
      DedupFirstEncounterOrder(p);
      assert s == p + [last];
      var r := Dedup(s);
      forall i, j | 0 <= i < j < |r| ensures FirstIndex(s, r[i]) < FirstIndex(s, r[j]) {
        FirstIndexPrefix(p, [last], r[i]);
        if j < |Dedup(p)| {
          FirstIndexPrefix(p, [last], r[j]);
        } else {
          assert r[j] == last && last !in p;
          assert FirstIndex(s, r[j]) == |p|;
        }
      }
    }
  }

  /** The atlas rectangle of a roof texture: the extent of the roof mesh's UVs for that
      texture, at PixelsPerMeter, rounded to whole pixels. */
  function RoofRect(e: Engine, textureIndex: int): Rect {
    var extent := Vec2(e.maxWorldUvSize(textureIndex).x - e.minWorldUvSize(textureIndex).x,
                       e.maxWorldUvSize(textureIndex).y - e.minWorldUvSize(textureIndex).y);
    Rect(0.0, 0.0, Round(extent.x * PixelsPerMeter as real) as real, Round(extent.y * PixelsPerMeter as real) as real)
  }

  /** Slot k holds texture roofTextureIndex[k], sized by its roof UV extent. */
  predicate SlotsMatch(d: Data, e: Engine, roofRects: seq<Rect>, roofTextures: seq<Texture>, roofTextureIndex: seq<int>) {
    |roofRects| == |roofTextures| == |roofTextureIndex|
    && forall k :: 0 <= k < |roofTextureIndex| ==>
         0 <= roofTextureIndex[k] < |d.textures|
         && roofTextures[k] == d.textures[roofTextureIndex[k]]
         && roofRects[k] == RoofRect(e, roofTextureIndex[k])
  }

  lemma SlotsMatchSnoc(d: Data, e: Engine, roofRects: seq<Rect>, roofTextures: seq<Texture>, roofTextureIndex: seq<int>, t: int)
    requires SlotsMatch(d, e, roofRects, roofTextures, roofTextureIndex)
    requires 0 <= t < |d.textures|
    ensures SlotsMatch(d, e, roofRects + [RoofRect(e, t)], roofTextures + [d.textures[t]], roofTextureIndex + [t])
  {
  }

  lemma RoofIndexInRange(d: Data, r: int, j: int)
    requires WellFormed(d) && 0 <= r < |d.roofs| && 0 <= j < |d.roofs[r].textureValues|
    ensures 0 <= d.roofs[r].textureValues[j] < |d.textures|
  {
  }

  lemma DedupSnoc(s: seq<int>, x: int)
    ensures Dedup(s + [x]) == if x in Dedup(s) then Dedup(s) else Dedup(s) + [x]
  {
    assert (s + [x])[..|s|] == s;
  }

  lemma FlattenSnoc(roofs: seq<Roof>, r: nat)
    requires r < |roofs|
    ensures Flatten(roofs[..r + 1]) == Flatten(roofs[..r]) + roofs[r].textureValues
  {
    assert roofs[..r + 1][..r] == roofs[..r];
  }

  /** The rectangle Build plans for a roof texture seen for the first time. */
  method MeasureRoofTexture(e: Engine, textureIndex: int) returns (newRoofTextureRect: Rect)
    ensures newRoofTextureRect == RoofRect(e, textureIndex)
  {
    var minWorldUvSize := e.minWorldUvSize(textureIndex);
    var maxWorldUvSize := e.maxWorldUvSize(textureIndex);
    var largestSubmeshPlaneSize := Vec2(maxWorldUvSize.x - minWorldUvSize.x, maxWorldUvSize.y - minWorldUvSize.y);
    var roofTextureWidth := Round(largestSubmeshPlaneSize.x * PixelsPerMeter as real);
    var roofTextureHeight := Round(largestSubmeshPlaneSize.y * PixelsPerMeter as real);
    newRoofTextureRect := Rect(0.0, 0.0, roofTextureWidth as real, roofTextureHeight as real);
  }

  /** One texture index of a roof design: appended with its rectangle and texture when it has
      not been seen before, skipped otherwise. */
  method VisitRoofTexture(d: Data, e: Engine, textureIndex: int, roofRects: seq<Rect>, roofTextures: seq<Texture>, roofTextureIndex: seq<int>, ghost visited: seq<int>)
    returns (roofRects': seq<Rect>, roofTextures': seq<Texture>, roofTextureIndex': seq<int>)
    requires 0 <= textureIndex < |d.textures|
    requires roofTextureIndex == Dedup(visited)
    requires SlotsMatch(d, e, roofRects, roofTextures, roofTextureIndex)
    ensures roofTextureIndex' == Dedup(visited + [textureIndex])
    ensures SlotsMatch(d, e, roofRects', roofTextures', roofTextureIndex')
  {
    DedupSnoc(visited, textureIndex);
    roofRects', roofTextures', roofTextureIndex' := roofRects, roofTextures, roofTextureIndex;
    if textureIndex !in roofTextureIndex {
      var bTexture := d.textures[textureIndex];
      var newRoofTextureRect := MeasureRoofTexture(e, textureIndex);
      SlotsMatchSnoc(d, e, roofRects, roofTextures, roofTextureIndex, textureIndex);
      roofRects' := roofRects + [newRoofTextureRect];
      roofTextures' := roofTextures + [bTexture];
      roofTextureIndex' := roofTextureIndex + [textureIndex];
    }
  }

  /** The inner roof loop of Build: the texture indices of one roof design, each appended
      with its rectangle and texture when it has not been seen before. */
  method AddRoofDesign(d: Data, e: Engine, r: nat, roofRects: seq<Rect>, roofTextures: seq<Texture>, roofTextureIndex: seq<int>, ghost visited: seq<int>)
    returns (roofRects': seq<Rect>, roofTextures': seq<Texture>, roofTextureIndex': seq<int>)
    requires WellFormed(d) && r < |d.roofs|
    requires roofTextureIndex == Dedup(visited)
    requires SlotsMatch(d, e, roofRects, roofTextures, roofTextureIndex)
    ensures roofTextureIndex' == Dedup(visited + d.roofs[r].textureValues)
    ensures SlotsMatch(d, e, roofRects', roofTextures', roofTextureIndex')
  {
    roofRects', roofTextures', roofTextureIndex' := roofRects, roofTextures, roofTextureIndex;
    var roofDesign := d.roofs[r];
    ghost var seen := visited;
    assert seen + roofDesign.textureValues[..0] == seen;
    for j := 0 to |roofDesign.textureValues|
      invariant roofTextureIndex' == Dedup(seen + roofDesign.textureValues[..j])
      invariant SlotsMatch(d, e, roofRects', roofTextures', roofTextureIndex')
    {
      var textureIndex := roofDesign.textureValues[j];
      RoofIndexInRange(d, r, j);
      ghost var before := seen + roofDesign.textureValues[..j];
      roofRects', roofTextures', roofTextureIndex' := VisitRoofTexture(d, e, textureIndex, roofRects', roofTextures', roofTextureIndex', before);
      assert roofDesign.textureValues[..j + 1] == roofDesign.textureValues[..j] + [textureIndex];
      assert seen + roofDesign.textureValues[..j + 1] == before + [textureIndex];
    }
    assert roofDesign.textureValues[..|roofDesign.textureValues|] == roofDesign.textureValues;
  }

  /** The roof loop of Build: for every texture index of every roof not seen before, one
      rectangle, one texture and one index are appended, in order of first occurrence. */
  method PlanRoofSlots(d: Data, e: Engine) returns (roofRects: seq<Rect>, roofTextures: seq<Texture>, roofTextureIndex: seq<int>)
    requires WellFormed(d)
    ensures roofTextureIndex == Dedup(Flatten(d.roofs))
    ensures |roofRects| == |roofTextures| == |roofTextureIndex|
    ensures forall k :: 0 <= k < |roofTextureIndex| ==>
              0 <= roofTextureIndex[k] < |d.textures|
              && roofTextures[k] == d.textures[roofTextureIndex[k]]
              && roofRects[k] == RoofRect(e, roofTextureIndex[k])
  {
    roofRects, roofTextures, roofTextureIndex := [], [], [];
    for r := 0 to |d.roofs|
      invariant roofTextureIndex == Dedup(Flatten(d.roofs[..r]))
      invariant SlotsMatch(d, e, roofRects, roofTextures, roofTextureIndex)
    {
      FlattenSnoc(d.roofs, r);
      roofRects, roofTextures, roofTextureIndex := AddRoofDesign(d, e, r, roofRects, roofTextures, roofTextureIndex, Flatten(d.roofs[..r]));
    }
    assert d.roofs[..|d.roofs|] == d.roofs;
  }
}
