/** Sizing of the atlas after packing (LowDetailBuilder.Build): a packed width above the
    maximum scales every rectangle down to fit, any other width is rounded up to a power of
    two. */
module AtlasSizing {
  import opened Pixels
  import opened BuildingData

  function Pow2(k: nat): (r: int)
    ensures r >= 1
  {
    if k == 0 then 1 else 2 * Pow2(k - 1)
  }

  lemma {:induction false} Pow2Monotone(j: nat, k: nat)
    requires j <= k
    ensures Pow2(j) <= Pow2(k)
    decreases k - j
  {
    if j < k {
      Pow2Monotone(j, k - 1);
    }
  }

  /** The exponent of the smallest power of two that is at least w, searched upwards from k. */
  function CeilLog2From(w: int, k: nat): (r: nat)
    requires Pow2(k) < 2 * w
    ensures k <= r
    ensures w <= Pow2(r) < 2 * w
    ensures r == 0 || Pow2(r - 1) < w
    decreases w - Pow2(k)
  {
    if Pow2(k) >= w then k else CeilLog2From(w, k + 1)
  }

  /** The width the source computes as 2^(FloorToInt(Log2(w - 1)) + 1): for w >= 2 the least
      power of two not below w; for w <= 1 the logarithm is infinite or undefined and the
      power comes out as 0. */
  function NextPowerOfTwo(w: int): (r: int)
  {
    if w <= 1 then 0 else Pow2(CeilLog2From(w, 0))
  }

  /** For w >= 2 the result is a power of two, at least w, and no power of two at least w is
      smaller; for w <= 1 it is 0. */
  lemma NextPowerOfTwoIsLeast(w: int)
    ensures w <= 1 ==> NextPowerOfTwo(w) == 0
    ensures w >= 2 ==> exists k: nat :: NextPowerOfTwo(w) == Pow2(k)
    ensures w >= 2 ==> NextPowerOfTwo(w) >= w
    ensures w >= 2 ==> forall j: nat :: Pow2(j) >= w ==> Pow2(j) >= NextPowerOfTwo(w)
  {
    if w >= 2 {
      var k := CeilLog2From(w, 0);
      assert NextPowerOfTwo(w) == Pow2(k);
      forall j: nat | Pow2(j) >= w ensures Pow2(j) >= Pow2(k) {
        if j < k {
          Pow2Monotone(j, k - 1);
        } else {
          Pow2Monotone(k, j);
        }
      }
    }
  }

  /** Every coordinate of a rectangle multiplied by the same factor. */
  function Scale(a: Rect, s: real): (r: Rect)
    ensures r.XMax() == a.XMax() * s && r.YMax() == a.YMax() * s
  {
    Rect(a.x * s, a.y * s, a.width * s, a.height * s)
  }

  /** Scaling by a positive factor keeps two rectangles apart. */
  lemma ScaleKeepsDisjoint(a: Rect, b: Rect, s: real)
    requires s > 0.0 && Disjoint(a, b)
    ensures Disjoint(Scale(a, s), Scale(b, s))
  {
  }

  /** Scaling by a positive factor maps the bin of width w onto the bin of width w * s. */
  lemma ScaleKeepsInBin(a: Rect, w: real, s: real)
    requires s > 0.0 && InBin(a, w)
    ensures InBin(Scale(a, s), w * s)
  {
  }

  /** The sizing step of Build: returns the rectangles, packedScale and textureWidth. */
  method SizeAtlas(packedTexturePositions: seq<Rect>, packedWidth: int)
    returns (rects: seq<Rect>, packedScale: real, textureWidth: int)
    ensures |rects| == |packedTexturePositions| && textureWidth >= 0
    ensures packedWidth > MaximumTextureSize ==>
              packedScale == MaximumTextureSize as real / packedWidth as real
              && textureWidth == MaximumTextureSize
              && forall i :: 0 <= i < |rects| ==> rects[i] == Scale(packedTexturePositions[i], packedScale)
    ensures packedWidth <= MaximumTextureSize ==>
              packedScale == 1.0 && rects == packedTexturePositions
              && textureWidth == NextPowerOfTwo(packedWidth)
  {
    rects := packedTexturePositions;
    packedScale := 1.0;
    textureWidth := packedWidth;
    var numberOfRects := |rects|;
    if textureWidth > MaximumTextureSize {
      packedScale := MaximumTextureSize as real / textureWidth as real;
      for i := 0 to numberOfRects
        invariant |rects| == numberOfRects
        invariant forall k :: 0 <= k < i ==> rects[k] == Scale(packedTexturePositions[k], packedScale)
        invariant forall k :: i <= k < numberOfRects ==> rects[k] == packedTexturePositions[k]
      {
        var thisRect := rects[i];
        thisRect := thisRect.(x := thisRect.x * packedScale);
        thisRect := thisRect.(y := thisRect.y * packedScale);
        thisRect := thisRect.(width := thisRect.width * packedScale);
        thisRect := thisRect.(height := thisRect.height * packedScale);
        rects := rects[i := thisRect];
      }
      assert packedScale * textureWidth as real == MaximumTextureSize as real;
      textureWidth := Round(packedScale * textureWidth as real);
    } else {
      textureWidth := NextPowerOfTwo(textureWidth);
    }
  }

  /** The scale, width and rectangles SizeAtlas leaves for a packer result of width w. */
  function SizedScale(w: int): real {
    if w > MaximumTextureSize then MaximumTextureSize as real / w as real else 1.0
  }

  function SizedWidth(w: int): int {
    if w > MaximumTextureSize then MaximumTextureSize else NextPowerOfTwo(w)
  }

  function SizedRects(packed: seq<Rect>, w: int): (r: seq<Rect>)
    ensures |r| == |packed|
  {
    if w > MaximumTextureSize then seq(|packed|, i requires 0 <= i < |packed| => Scale(packed[i], SizedScale(w)))
    else packed
  }

  /** The sized atlas still holds what the packer produced: when the packer's rectangles are
      disjoint and inside its bin of width w >= 2, the sized rectangles are disjoint and inside
      the final square of side textureWidth. */
  lemma SizedLayoutFits(packed: seq<Rect>, w: int, rects: seq<Rect>, packedScale: real, textureWidth: int)
    requires w >= 2
    requires forall i :: 0 <= i < |packed| ==> InBin(packed[i], w as real)
    requires forall i, j :: 0 <= i < j < |packed| ==> Disjoint(packed[i], packed[j])
    requires |rects| == |packed|
    requires w > MaximumTextureSize ==>
               packedScale == MaximumTextureSize as real / w as real
               && textureWidth == MaximumTextureSize
               && forall i :: 0 <= i < |rects| ==> rects[i] == Scale(packed[i], packedScale)
    requires w <= MaximumTextureSize ==>
               rects == packed && textureWidth == NextPowerOfTwo(w)
    ensures forall i :: 0 <= i < |rects| ==> InBin(rects[i], textureWidth as real)
    ensures forall i, j :: 0 <= i < j < |rects| ==> Disjoint(rects[i], rects[j])
  {
    if w > MaximumTextureSize {
      assert w as real * packedScale == textureWidth as real;
      forall i | 0 <= i < |rects| ensures InBin(rects[i], textureWidth as real) {
        ScaleKeepsInBin(packed[i], w as real, packedScale);
      }
      forall i, j | 0 <= i < j < |rects| ensures Disjoint(rects[i], rects[j]) {
        ScaleKeepsDisjoint(packed[i], packed[j], packedScale);
      }
    } else {
      NextPowerOfTwoIsLeast(w);
      forall i | 0 <= i < |rects| ensures InBin(rects[i], textureWidth as real) {
        assert InBin(packed[i], w as real);
      }
    }
  }

  /** Sizing keeps every packed rectangle's size up to the packed scale. */
  lemma SizedKeepsSizes(planned: seq<Rect>, packed: PackResult)
    requires PackedBy(planned, packed)
    ensures var rs := SizedRects(packed.rects, packed.width);
            |rs| == |planned|
            && forall k :: 0 <= k < |planned| ==>
                 rs[k].width == planned[k].width * SizedScale(packed.width)
                 && rs[k].height == planned[k].height * SizedScale(packed.width)
  {
    var rs := SizedRects(packed.rects, packed.width);
    forall k | 0 <= k < |planned|
      ensures rs[k].width == planned[k].width * SizedScale(packed.width)
      ensures rs[k].height == planned[k].height * SizedScale(packed.width)
    {
      if packed.width > MaximumTextureSize {
        assert rs[k] == Scale(packed.rects[k], SizedScale(packed.width));
      }
    }
  }

  /** A packer result of width at least two, once sized, is a set of pairwise disjoint
      rectangles inside the square atlas, whose side is at least two. */
  lemma SizedFitsAtlas(planned: seq<Rect>, packed: PackResult)
    requires PackedBy(planned, packed) && packed.width >= 2
    ensures var rs := SizedRects(packed.rects, packed.width);
            var side := SizedWidth(packed.width);
            side >= 2
            && (forall k :: 0 <= k < |rs| ==> InBin(rs[k], side as real))
            && (forall i, j :: 0 <= i < j < |rs| ==> Disjoint(rs[i], rs[j]))
  {
    var w := packed.width;
    var rs := SizedRects(packed.rects, w);
    if w > MaximumTextureSize {
      forall i | 0 <= i < |rs| ensures rs[i] == Scale(packed.rects[i], SizedScale(w)) { }
    }
    SizedLayoutFits(packed.rects, w, rs, SizedScale(w), SizedWidth(w));
    NextPowerOfTwoIsLeast(w);
  }
}
