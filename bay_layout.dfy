/** The layout of one floor of a facade (LowDetailBuilder.BuildTextures): whether the floor is
    a blank wall, how many bays fit across the facade, how the leftover width is shared out,
    and which rectangles each bay draws. Lengths are metres on the facade. */
module BayLayout {
  import opened Wrappers
  import opened BuildingData
  import opened FacadePaint

  /** The blank-wall test, or None where BayPattern[0] is read from an empty pattern or names
      no bay. An empty pattern raises before the Count test that follows it is reached. */
  function IsBlankWall(d: Data, facade: Facade, facadeWidth: real): (r: Option<bool>)
    ensures facade.isPatterned ==>
              (r.Some? <==> |facade.bayPattern| > 0 && 0 <= facade.bayPattern[0] < |d.bays|)
    ensures !facade.isPatterned ==> r.Some?
    ensures r.Some? ==>
              (r.value <==> !facade.hasWindows
                            || (facade.isPatterned && d.bays[facade.bayPattern[0]].openingWidth > facadeWidth)
                            || (!facade.isPatterned && facade.simpleBay.openingWidth + facade.simpleBay.spacing > facadeWidth))
  {
    var isBlankWall := !facade.hasWindows;
    if facade.isPatterned then
      if |facade.bayPattern| == 0 || !(0 <= facade.bayPattern[0] < |d.bays|) then None
      else
        var firstBay := d.bays[facade.bayPattern[0]];
        Some(isBlankWall || firstBay.openingWidth > facadeWidth)
    else
      Some(isBlankWall || facade.simpleBay.openingWidth + facade.simpleBay.spacing > facadeWidth)
  }

  /** The bay designs a windowed floor cycles through: the pattern's bays, or the simple bay;
      None where a pattern entry names no bay. */
  function BayDesigns(d: Data, facade: Facade): (r: Option<seq<Bay>>)
    requires facade.isPatterned ==> |facade.bayPattern| > 0
    ensures r.Some? ==> |r.value| > 0
    ensures r.Some? && facade.isPatterned ==>
              |r.value| == |facade.bayPattern|
              && forall i :: 0 <= i < |r.value| ==> 0 <= facade.bayPattern[i] < |d.bays| && r.value[i] == d.bays[facade.bayPattern[i]]
    ensures r.Some? && !facade.isPatterned ==> r.value == [facade.simpleBay]
    ensures facade.isPatterned ==>
              (r.Some? <==> forall i :: 0 <= i < |facade.bayPattern| ==> 0 <= facade.bayPattern[i] < |d.bays|)
    ensures !facade.isPatterned ==> r.Some?
  {
    if facade.isPatterned then
      if forall i :: 0 <= i < |facade.bayPattern| ==> 0 <= facade.bayPattern[i] < |d.bays| then
        Some(seq(|facade.bayPattern|, i requires 0 <= i < |facade.bayPattern| => d.bays[facade.bayPattern[i]]))
      else None
    else Some([facade.simpleBay])
  }

  /** The width one bay claims while fitting: its opening and its spacing. */
  function Addition(bay: Bay): real {
    bay.openingWidth + bay.spacing
  }

  /** patternSize after n bays, taken cyclically from the designs. */
  function PatternPrefix(bays: seq<Bay>, n: nat): real
    requires |bays| > 0
  {
    if n == 0 then 0.0 else PatternPrefix(bays, n - 1) + Addition(bays[(n - 1) % |bays|])
  }

  /** The fitting loop from bay n on with `it` iterations left: a bay is added while it still
      fits strictly inside the facade, and the loop stops once `it` drops below zero. */
  function FitFrom(bays: seq<Bay>, facadeWidth: real, n: nat, it: int): (r: nat)
    requires |bays| > 0 && it >= 0
    ensures n <= r <= n + it + 1
    decreases it
  {
    if PatternPrefix(bays, n) + Addition(bays[n % |bays|]) < facadeWidth then
      if it - 1 < 0 then n + 1 else FitFrom(bays, facadeWidth, n + 1, it - 1)
    else n
  }

  /** The number of bays the greedy loop fits, starting from `it = 100`. */
  function FittedBays(bays: seq<Bay>, facadeWidth: real): (r: nat)
    requires |bays| > 0
  {
    FitFrom(bays, facadeWidth, 0, 100)
  }

  lemma {:induction false} FitFromGreedy(bays: seq<Bay>, facadeWidth: real, n: nat, it: int)
    requires |bays| > 0 && it >= 0
    requires forall k :: 1 <= k <= n ==> PatternPrefix(bays, k) < facadeWidth
    ensures var r := FitFrom(bays, facadeWidth, n, it);
            (forall k :: 1 <= k <= r ==> PatternPrefix(bays, k) < facadeWidth)
            && (r == n + it + 1 || PatternPrefix(bays, r) + Addition(bays[r % |bays|]) >= facadeWidth)
    decreases it
  {
    if PatternPrefix(bays, n) + Addition(bays[n % |bays|]) < facadeWidth && it - 1 >= 0 {
      FitFromGreedy(bays, facadeWidth, n + 1, it - 1);
    }
  }

  /** The greedy fit: at most 101 bays are placed, every prefix of them fits strictly inside the
      facade, and unless the cap was reached the next bay would not. */
  lemma FittedBaysGreedy(bays: seq<Bay>, facadeWidth: real)
    requires |bays| > 0
    ensures var n := FittedBays(bays, facadeWidth);
            n <= 101
            && (forall k :: 1 <= k <= n ==> PatternPrefix(bays, k) < facadeWidth)
            && (n == 101 || PatternPrefix(bays, n) + Addition(bays[n % |bays|]) >= facadeWidth)
  {
    FitFromGreedy(bays, facadeWidth, 0, 100);
  }

  /** The fitting loop of BuildTextures. */
  method FitBays(bays: seq<Bay>, facadeWidth: real) returns (numberOfBays: nat, patternSize: real)
    requires |bays| > 0
    ensures numberOfBays == FittedBays(bays, facadeWidth)
    ensures patternSize == PatternPrefix(bays, numberOfBays)
  {
    patternSize := 0.0;
    numberOfBays := 0;
    var numberOfBayDesigns := |bays|;
    var it := 100;
    while true
      invariant 0 <= it <= 100 && numberOfBays == 100 - it
      invariant patternSize == PatternPrefix(bays, numberOfBays)
      invariant FitFrom(bays, facadeWidth, numberOfBays, it) == FittedBays(bays, facadeWidth)
      decreases it
    {
      var patternModIndex := numberOfBays % numberOfBayDesigns;
      var patternAddition := bays[patternModIndex].openingWidth + bays[patternModIndex].spacing;
      if patternSize + patternAddition < facadeWidth {
        patternSize := patternSize + patternAddition;
        numberOfBays := numberOfBays + 1;
      } else {
        break;
      }
      it := it - 1;
      if it < 0 {
        break;
      }
    }
  }

  /** perBayAdditionalSpacing: the unfilled width shared equally by the bays. With no bays the
      source divides by zero in floating point, and the value is never used. */
  function PerBaySpacing(facadeWidth: real, patternSize: real, numberOfBays: nat): real {
    if numberOfBays == 0 then 0.0 else (facadeWidth - patternSize) / numberOfBays as real
  }

  /** The width a bay advances windowXBase by. */
  function Advance(bay: Bay, perBay: real): real {
    bay.openingWidth + bay.spacing + perBay
  }

  /** windowXBase before bay c. */
  function XBase(bays: seq<Bay>, c: nat, perBay: real): real
    requires |bays| > 0
  {
    if c == 0 then 0.0 else XBase(bays, c - 1, perBay) + Advance(bays[(c - 1) % |bays|], perBay)
  }

  lemma {:induction false} XBaseIsPatternPlusSpacing(bays: seq<Bay>, c: nat, perBay: real)
    requires |bays| > 0
    ensures XBase(bays, c, perBay) == PatternPrefix(bays, c) + c as real * perBay
  {
    if c > 0 {
      XBaseIsPatternPlusSpacing(bays, c - 1, perBay);
    }
  }

  /** With the unfilled width shared out over n > 0 bays, the advances of the bays add up to
      the facade width exactly; in particular for the n the greedy fit chooses. */
  lemma AdvancesFillFacade(bays: seq<Bay>, facadeWidth: real, n: nat)
    requires |bays| > 0 && n > 0
    ensures XBase(bays, n, PerBaySpacing(facadeWidth, PatternPrefix(bays, n), n)) == facadeWidth
  {
    var perBay := PerBaySpacing(facadeWidth, PatternPrefix(bays, n), n);
    XBaseIsPatternPlusSpacing(bays, n, perBay);
    MulDivCancel(facadeWidth - PatternPrefix(bays, n), n as real);
  }

  lemma MulDivCancel(a: real, n: real)
    requires n != 0.0
    ensures n * (a / n) == a
  {
  }

  /** The four spans of an opening bay: the column widths either side of the opening and the
      row heights below and above it. */
  datatype Spans = Spans(leftSpace: real, rightSpace: real, rowBottomHeight: real, rowTopHeight: real)

  function BaySpans(bay: Bay, floorHeight: real, perBay: real): (s: Spans)
    ensures s.leftSpace + s.rightSpace == bay.spacing + perBay
    ensures s.rowBottomHeight + bay.openingHeight + s.rowTopHeight == floorHeight
    ensures s.leftSpace == (bay.spacing + perBay) * bay.openingWidthRatio
    ensures s.rowBottomHeight == (floorHeight - bay.openingHeight) * bay.openingHeightRatio
  {
    var actualWindowSpacing := bay.spacing + perBay;
    var leftSpace := actualWindowSpacing * bay.openingWidthRatio;
    var rowBottomHeight := (floorHeight - bay.openingHeight) * bay.openingHeightRatio;
    Spans(leftSpace, actualWindowSpacing - leftSpace, rowBottomHeight, floorHeight - rowBottomHeight - bay.openingHeight)
  }

  function Part(bay: Bay, part: BayPart, x: real, y: real, width: real, height: real): DrawRequest {
    DrawRequest(Vec2(x, y), Vec2(width, height), bay.texture(part), bay.flipped(part))
  }

  function DrawIf(cond: bool, reqs: seq<DrawRequest>): seq<DrawRequest> {
    if cond then reqs else []
  }

  /** The window of an opening bay with spans s, whose left edge is at windowXBase on the floor
      starting at currentFloorBase. */
  function OpeningRequest(bay: Bay, windowXBase: real, currentFloorBase: real, s: Spans): DrawRequest {
    Part(bay, OpeningBack, windowXBase + s.leftSpace, currentFloorBase + s.rowBottomHeight, bay.openingWidth, bay.openingHeight)
  }

  /** The columns beside the opening and the rows below and above it, each only where its span
      is positive. */
  function JambRequests(bay: Bay, windowXBase: real, currentFloorBase: real, s: Spans): seq<DrawRequest> {
    var xOpening := windowXBase + s.leftSpace;
    var xRight := windowXBase + s.leftSpace + bay.openingWidth;
    var yOpening := currentFloorBase + s.rowBottomHeight;
    var yTop := currentFloorBase + s.rowBottomHeight + bay.openingHeight;
    DrawIf(s.leftSpace > 0.0, [Part(bay, Column, windowXBase, yOpening, s.leftSpace, bay.openingHeight)])
    + DrawIf(s.rightSpace > 0.0, [Part(bay, Column, xRight, yOpening, s.rightSpace, bay.openingHeight)])
    + DrawIf(s.rowBottomHeight > 0.0, [Part(bay, Row, xOpening, currentFloorBase, bay.openingWidth, s.rowBottomHeight)])
    + DrawIf(s.rowTopHeight > 0.0, [Part(bay, Row, xOpening, yTop, bay.openingWidth, s.rowTopHeight)])
  }

  /** The four corners of an opening bay: below and above the opening on the left where the
      left column is positive, then the same on the right. */
  function CrossRequests(bay: Bay, windowXBase: real, currentFloorBase: real, s: Spans): seq<DrawRequest> {
    var xRight := windowXBase + s.leftSpace + bay.openingWidth;
    var yTop := currentFloorBase + s.rowBottomHeight + bay.openingHeight;
    DrawIf(s.leftSpace > 0.0, [Part(bay, Cross, windowXBase, currentFloorBase, s.leftSpace, s.rowBottomHeight)])
    + DrawIf(s.leftSpace > 0.0, [Part(bay, Cross, windowXBase, yTop, s.leftSpace, s.rowTopHeight)])
    + DrawIf(s.rightSpace > 0.0, [Part(bay, Cross, xRight, currentFloorBase, s.rightSpace, s.rowBottomHeight)])
    + DrawIf(s.rightSpace > 0.0, [Part(bay, Cross, xRight, yTop, s.rightSpace, s.rowTopHeight)])
  }

  /** The draws of one bay whose left edge is at windowXBase on the floor starting at
      currentFloorBase: a solid bay is one wall rectangle; an opening bay draws its window and
      then, where their span is positive, the two columns, the two rows and the four crosses. */
  function BayRequests(bay: Bay, windowXBase: real, currentFloorBase: real, floorHeight: real, perBay: real): seq<DrawRequest> {
    if !bay.isOpening then
      [Part(bay, Wall, windowXBase, currentFloorBase, bay.openingWidth + bay.spacing + perBay, floorHeight)]
    else
      var s := BaySpans(bay, floorHeight, perBay);
      [OpeningRequest(bay, windowXBase, currentFloorBase, s)] + JambRequests(bay, windowXBase, currentFloorBase, s)
      + CrossRequests(bay, windowXBase, currentFloorBase, s)
  }

  /** The sub-regions of an opening bay tile it: the columns and crosses sit either side of the
      opening, the rows and crosses below and above it, and the spans add up to the bay's
      advance and to the floor height. */
  lemma OpeningBayTiles(bay: Bay, windowXBase: real, currentFloorBase: real, floorHeight: real, perBay: real)
    requires bay.isOpening
    ensures var s := BaySpans(bay, floorHeight, perBay);
            var reqs := BayRequests(bay, windowXBase, currentFloorBase, floorHeight, perBay);
            reqs[0] == Part(bay, OpeningBack, windowXBase + s.leftSpace, currentFloorBase + s.rowBottomHeight,
                            bay.openingWidth, bay.openingHeight)
            && s.leftSpace + bay.openingWidth + s.rightSpace == Advance(bay, perBay)
            && s.rowBottomHeight + bay.openingHeight + s.rowTopHeight == floorHeight
            && |reqs| == 1 + (if s.leftSpace > 0.0 then 3 else 0) + (if s.rightSpace > 0.0 then 3 else 0)
                           + (if s.rowBottomHeight > 0.0 then 1 else 0) + (if s.rowTopHeight > 0.0 then 1 else 0)
  {
  }

  /** A solid bay is a single wall draw exactly as wide as its advance and as tall as the floor. */
  lemma SolidBayIsOneWall(bay: Bay, windowXBase: real, currentFloorBase: real, floorHeight: real, perBay: real)
    requires !bay.isOpening
    ensures BayRequests(bay, windowXBase, currentFloorBase, floorHeight, perBay)
            == [DrawRequest(Vec2(windowXBase, currentFloorBase), Vec2(Advance(bay, perBay), floorHeight),
                            bay.texture(Wall), bay.flipped(Wall))]
  {
  }

  /** The draws of bays 0 .. c - 1 of a floor, each at its windowXBase. */
  function BaysRequests(bays: seq<Bay>, c: nat, perBay: real, currentFloorBase: real, floorHeight: real): seq<DrawRequest>
    requires |bays| > 0
  {
    if c == 0 then []
    else BaysRequests(bays, c - 1, perBay, currentFloorBase, floorHeight)
         + BayRequests(bays[(c - 1) % |bays|], XBase(bays, c - 1, perBay), currentFloorBase, floorHeight, perBay)
  }

  /** The single draw of a blank floor: the simple bay's wall across the whole facade. */
  function WallRequest(facade: Facade, currentFloorBase: real, facadeWidth: real, floorHeight: real): DrawRequest {
    Part(facade.simpleBay, Wall, 0.0, currentFloorBase, facadeWidth, floorHeight)
  }

  /** The draws of floor r drawn with facade design `facade`, or None where the layout raises. */
  function FloorRequests(d: Data, facade: Facade, facadeWidth: real, floorHeight: real, r: nat): Option<seq<DrawRequest>> {
    var currentFloorBase := floorHeight * r as real;
    match IsBlankWall(d, facade, facadeWidth)
    case None => None
    case Some(blank) =>
      if blank then Some([WallRequest(facade, currentFloorBase, facadeWidth, floorHeight)])
      else
        match BayDesigns(d, facade)
        case None => None
        case Some(bays) =>
          var n := FittedBays(bays, facadeWidth);
          var perBay := PerBaySpacing(facadeWidth, PatternPrefix(bays, n), n);
          Some(BaysRequests(bays, n, perBay, currentFloorBase, floorHeight))
  }

  /** A blank floor draws exactly one rectangle: the simple bay's wall at the floor's base,
      as wide as the facade and as tall as a floor. */
  lemma BlankFloorIsOneWall(d: Data, facade: Facade, facadeWidth: real, floorHeight: real, r: nat)
    requires IsBlankWall(d, facade, facadeWidth) == Some(true)
    ensures FloorRequests(d, facade, facadeWidth, floorHeight, r)
            == Some([DrawRequest(Vec2(0.0, floorHeight * r as real), Vec2(facadeWidth, floorHeight),
                                 facade.simpleBay.texture(Wall), facade.simpleBay.flipped(Wall))])
  {
  }

  /** A patterned facade with an empty bay pattern raises on every floor. */
  lemma EmptyBayPatternFaults(d: Data, facade: Facade, facadeWidth: real, floorHeight: real, r: nat)
    requires facade.isPatterned && |facade.bayPattern| == 0
    ensures FloorRequests(d, facade, facadeWidth, floorHeight, r) == None
  {
  }
}
