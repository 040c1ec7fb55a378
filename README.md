# Mercraft core, modelled in Dafny

Mercraft turns OpenStreetMap data into a 3D scene. This project models six parts of it and
proves properties of the models.

- **The low-detail building builder** (`LowDetailBuilder`). It plans one atlas rectangle per
  visible facade and one per distinct roof texture, and hands them to the packer. The packed
  width is then rounded up to a power of two, or, above 1024 pixels, every rectangle is scaled
  down. The builder paints every facade floor by floor and bay by bay into a flat `Color32`
  buffer, with seam padding, and copies the roof textures after the facades. Finally it emits
  the building's simplified mesh, with UVs that point into the atlas. Modules: `Pixels`,
  `BuildingData`, `AtlasContext`, `FacadeSlots`, `RoofSlots`, `AtlasSizing`, `FloorPattern`,
  `BayLayout`, `FacadePaint`, `FacadePass`, `FacadeComposite`, `RoofPass` and `LowDetail`.
  `Wrappers` and `Sequences` hold the optional value and list reversal that all modules share.
- **The polygon primitive** (`Polygon`). It covers cyclic vertex navigation, the shoelace areas,
  vertex and polygon classification, orientation, and in-place reversal. Module: `Polygons`.
- **The MapCSS visitor** (`MapCssVisitor`). It walks a MapCSS parse tree into styles, their
  selectors and their declarations. A selector or a declaration comes from the first sub-visitor
  that builds one. Module: `MapCssVisiting`.
- **The OSM XML converter** (`XmlSimpleConverter`). It converts OSM XML 0.6 nodes, ways and
  relations into domain entities. The optional attributes carry "specified" flags. Module:
  `XmlSimpleConverter`.
- **The SRTM elevation provider** (`SrtmElevationProvider`). It computes the cell key and the
  `.hgt` file name of a coordinate, and keeps a cache of the loaded cells. Module: `SrtmElevation`.
- **The zone loader** (`ZoneLoader`). It reacts to two position events and holds at most one
  zone. Module: `ZoneLoading`.

Where the source changes state in place, the model does too: the atlas buffer is an `array`,
the Polygon vertex array is an `array` reversed in place, and the loader and provider are
classes whose methods assign their fields. The loops are methods with invariants. Each one is
proved against a function of its inputs or of its old state, and the properties the source
promises are lemmas about those functions.

These are the main ideas of the model:

- **Exceptions.** A C# exception (an index out of range, a remainder by zero, a null
  `Children` list, a missing SRTM file) is a `None`, `false` or `Faulted` result. Two cases
  are preconditions instead, and "## Left out" names both. One is the building's shape
  (`BuildingData.WellFormed`). The other is a `Polygon` whose vertex array is null.
- **Writes.** The texture passes are specified as sequences of pixel writes (`Pixels.Write`).
  Each method is proved to leave the buffer equal to its old contents with those writes
  applied.
- **Roof-pass early return.** The return at an index past the atlas ends the whole
  `BuildTextures`. It is the `Stopped` outcome, which keeps the earlier writes.
- **Collaborators.** Code that is not part of this model is a function-valued field of
  `BuildingData.Engine` or `BuildingData.Plan`, or a parameter. This covers the rectangle
  packer, the nearest-neighbour resampler, the roof mesh's UV extents, `Vector2.Distance`,
  the tile provider, the MapCSS sub-visitors and `File.Exists`. The packer's contract is
  assumed where a lemma needs it (`BuildingData.PackedBy`). `Build` and the roof copy assume
  no contract of the resampler: the roof copy faults when its buffer is too short. Only the
  lemma `LowDetail.SourceReadable` takes the resampler's size contract
  (`LowDetail.ResamplerHonoursSize`) as a hypothesis.
- **Quirks kept.** The XML converter maps a relation member of type `relation` to a new `Way`,
  as the source does.

## Model

| member | source | states |
|---|---|---|
| AtlasSizing.CeilLog2From | Projects/Mercraft.Models/Buildings/Builders/LowDetailBuilder.cs:128 | the exponent search ends at the least k whose power of two is at least the packed width |
| AtlasSizing.NextPowerOfTwoIsLeast | Projects/Mercraft.Models/Buildings/Builders/LowDetailBuilder.cs:128 | for a packed width of at least 2 the atlas width is a power of two, is at least the packed width and is no larger than any power of two that is; for a width of 1 or less the float formula gives 0 |
| AtlasSizing.Scale | Projects/Mercraft.Models/Buildings/Builders/LowDetailBuilder.cs:116-121 | scaling a rectangle multiplies its far edges by the scale |
| AtlasSizing.ScaleKeepsDisjoint | Projects/Mercraft.Models/Buildings/Builders/LowDetailBuilder.cs:114-123 | scaling two non-overlapping rectangles by the same positive factor keeps them non-overlapping |
| AtlasSizing.ScaleKeepsInBin | Projects/Mercraft.Models/Buildings/Builders/LowDetailBuilder.cs:114-123 | a rectangle inside a bin of width w stays inside the bin of width w times the scale |
| AtlasSizing.SizeAtlas | Projects/Mercraft.Models/Buildings/Builders/LowDetailBuilder.cs:108-129 | above 1024 pixels the scale is 1024 over the packed width, every rectangle is scaled by it and the width becomes 1024; otherwise the scale is 1, the rectangles are unchanged and the width is the next power of two |
| AtlasSizing.SizedLayoutFits | Projects/Mercraft.Models/Buildings/Builders/LowDetailBuilder.cs:105-133 | after sizing every rectangle lies inside the square atlas and the rectangles stay pairwise disjoint |
| AtlasSizing.SizedKeepsSizes | Projects/Mercraft.Models/Buildings/Builders/LowDetailBuilder.cs:106-125 | each sized rectangle is its planned rectangle's width and height times the scale |
| AtlasSizing.SizedFitsAtlas | Projects/Mercraft.Models/Buildings/Builders/LowDetailBuilder.cs:105-133 | for a packer result of the planned rectangles the atlas side is at least 2 and holds every sized rectangle without overlap |
| BayLayout.IsBlankWall | Projects/Mercraft.Models/Buildings/Builders/LowDetailBuilder.cs:330-341 | a floor is blank exactly when the facade has no windows, or its first pattern bay (patterned) or its simple bay plus spacing is wider than the facade; a patterned facade faults when its bay pattern is empty or names a missing bay, because BayPattern[0] is read before the Count check |
| BayLayout.BayDesigns | Projects/Mercraft.Models/Buildings/Builders/LowDetailBuilder.cs:348-361 | a patterned facade uses one bay per pattern entry in order and faults on a missing bay; any other facade uses its simple bay alone |
| BayLayout.FitFrom | Projects/Mercraft.Models/Buildings/Builders/LowDetailBuilder.cs:363-378 | the fitting loop adds at most its remaining iterations plus one bays |
| BayLayout.FitFromGreedy | Projects/Mercraft.Models/Buildings/Builders/LowDetailBuilder.cs:363-378 | every prefix the loop accepts is narrower than the facade, and it stops either at the iteration cap or when the next bay would not fit |
| BayLayout.FittedBaysGreedy | Projects/Mercraft.Models/Buildings/Builders/LowDetailBuilder.cs:363-378 | at most 101 bays; each accepted prefix of the repeated pattern is narrower than the facade; unless the cap is hit, one more bay would reach or pass the facade width |
| BayLayout.FitBays | Projects/Mercraft.Models/Buildings/Builders/LowDetailBuilder.cs:363-378 | the loop's bay count and pattern width are the greedy fit and the width of that many pattern bays |
| BayLayout.XBaseIsPatternPlusSpacing | Projects/Mercraft.Models/Buildings/Builders/LowDetailBuilder.cs:381-414 | the x position of bay c is the width of the first c pattern bays plus c shares of the leftover spacing |
| BayLayout.AdvancesFillFacade | Projects/Mercraft.Models/Buildings/Builders/LowDetailBuilder.cs:379-414 | with the leftover distributed over n > 0 bays the bays end exactly at the facade width |
| BayLayout.BaySpans | Projects/Mercraft.Models/Buildings/Builders/LowDetailBuilder.cs:394-396 | left and right space add up to the spacing plus the extra share, split by the opening width ratio; bottom row, opening and top row add up to the floor height, split by the opening height ratio |
| BayLayout.OpeningBayTiles | Projects/Mercraft.Models/Buildings/Builders/LowDetailBuilder.cs:418-513 | an opening bay draws the opening first at its offset, its pieces span the bay's advance and the floor height, and it draws one piece per non-empty column, row and corner |
| BayLayout.SolidBayIsOneWall | Projects/Mercraft.Models/Buildings/Builders/LowDetailBuilder.cs:403-416 | a bay that is not an opening draws one wall piece as wide as its advance and as tall as the floor |
| BayLayout.BlankFloorIsOneWall | Projects/Mercraft.Models/Buildings/Builders/LowDetailBuilder.cs:516-525 | a blank floor draws one wall piece across the whole facade width at the floor's height |
| BayLayout.EmptyBayPatternFaults | Projects/Mercraft.Models/Buildings/Builders/LowDetailBuilder.cs:333-335 | a patterned facade with an empty bay pattern faults |
| FacadeComposite.FloorsRequestsPrefix | Projects/Mercraft.Models/Buildings/Builders/LowDetailBuilder.cs:323-526 | when n floors produce their draws, every earlier floor count does too and its draws are a prefix |
| FacadeComposite.FloorsFaultSpreads | Projects/Mercraft.Models/Buildings/Builders/LowDetailBuilder.cs:323-526 | once a floor faults, every later floor count faults too |
| FacadeComposite.DrawNextFloor | Projects/Mercraft.Models/Buildings/Builders/LowDetailBuilder.cs:325-525 | drawing floor r succeeds exactly when the first r + 1 floors are accepted, and then the atlas holds the writes of their draws |
| FacadeComposite.DrawFacade | Projects/Mercraft.Models/Buildings/Builders/LowDetailBuilder.cs:306-526 | a facade's floors succeed exactly when all are accepted, and then the atlas is the old atlas with the writes of every draw of every floor in order |
| FacadeComposite.EdgeSemanticsOf | Projects/Mercraft.Models/Buildings/Builders/LowDetailBuilder.cs:284-528 | the per-edge painter built from the draw semantics agrees with it on every edge |
| FacadeComposite.VolumeEndCount | Projects/Mercraft.Models/Buildings/Builders/LowDetailBuilder.cs:279-529 | after the last edge of volume v the facade number equals the number of visible edges of volumes 0..v |
| FacadeComposite.EdgesOkUpToMeans | Projects/Mercraft.Models/Buildings/Builders/LowDetailBuilder.cs:284-528 | the recursive per-edge success predicate is the same as success on every edge before k |
| FacadeComposite.PassWrites | Projects/Mercraft.Models/Buildings/Builders/LowDetailBuilder.cs:279-529 | the pass's writes all fall inside the atlas when each edge's do |
| FacadeComposite.PassStep | Projects/Mercraft.Models/Buildings/Builders/LowDetailBuilder.cs:279-529 | accepting one more visible edge appends exactly that edge's writes |
| FacadeComposite.DrawVisibleEdge | Projects/Mercraft.Models/Buildings/Builders/LowDetailBuilder.cs:294-527 | drawing a visible facade succeeds exactly when the facade is accepted, and then applies exactly its writes |
| FacadeComposite.DrawEdge | Projects/Mercraft.Models/Buildings/Builders/LowDetailBuilder.cs:284-528 | one edge succeeds exactly when its slot and draws are accepted; the facade number advances only for a visible edge |
| FacadeComposite.DrawVolume | Projects/Mercraft.Models/Buildings/Builders/LowDetailBuilder.cs:279-529 | one volume succeeds exactly when all its edges do, and the facade number ends at the visible edges so far |
| FacadeComposite.CompositeFacades | Projects/Mercraft.Models/Buildings/Builders/LowDetailBuilder.cs:277-529 | the facade pass succeeds exactly when every visible edge is accepted, counts every visible edge, and leaves the atlas as the old atlas with all their writes in order |
| FacadePaint.SampleIndex | Projects/Mercraft.Models/Buildings/Builders/LowDetailBuilder.cs:641-661 | the clamped source index always lies inside the source pixels |
| FacadePaint.PixelCoord | Projects/Mercraft.Models/Buildings/Builders/LowDetailBuilder.cs:660 | the clamped destination always lies inside the atlas |
| FacadePaint.PadWrites | Projects/Mercraft.Models/Buildings/Builders/LowDetailBuilder.cs:665-707 | padding writes only the given colour and, from a pixel inside the atlas, never outside it |
| FacadePaint.PadIf | Projects/Mercraft.Models/Buildings/Builders/LowDetailBuilder.cs:665-707 | conditional padding stays inside the atlas |
| FacadePaint.CellWrites | Projects/Mercraft.Models/Buildings/Builders/LowDetailBuilder.cs:647-707 | one pixel's writes stay inside the atlas and begin with the sampled colour at the clamped destination |
| FacadePaint.ColumnWrites | Projects/Mercraft.Models/Buildings/Builders/LowDetailBuilder.cs:645-708 | one column's writes stay inside the atlas |
| FacadePaint.DrawWritesUpTo | Projects/Mercraft.Models/Buildings/Builders/LowDetailBuilder.cs:643-709 | the first columns' writes stay inside the atlas |
| FacadePaint.DrawWrites | Projects/Mercraft.Models/Buildings/Builders/LowDetailBuilder.cs:616-710 | a draw writes only inside the atlas and writes nothing when the painted width or height is not positive |
| FacadePaint.TiledSample | Projects/Mercraft.Models/Buildings/Builders/LowDetailBuilder.cs:649-653 | a tiled source is sampled at the pixel position modulo the source size, unclamped when the source holds width times height pixels |
| FacadePaint.FlipTransposesDestination | Projects/Mercraft.Models/Buildings/Builders/LowDetailBuilder.cs:641-647 | a flipped draw writes pixel (px, py) where an unflipped draw writes (py, px) |
| FacadePaint.PadStep | Projects/Mercraft.Models/Buildings/Builders/LowDetailBuilder.cs:668-706 | one padding step writes inside the atlas or, at the atlas edge, stops the loop |
| FacadePaint.PaintPadding | Projects/Mercraft.Models/Buildings/Builders/LowDetailBuilder.cs:668-706 | the padding loop leaves the atlas as the old atlas with the padding writes applied |
| FacadePaint.PaintCell | Projects/Mercraft.Models/Buildings/Builders/LowDetailBuilder.cs:647-707 | painting one pixel applies exactly that pixel's writes |
| FacadePaint.DrawFacadeTexture | Projects/Mercraft.Models/Buildings/Builders/LowDetailBuilder.cs:616-710 | a draw raises no exception exactly when the texture index is valid and either the pixel loops do not run or the source has a non-zero size and some pixels and the atlas is not empty; then it applies exactly the draw's writes, and otherwise the atlas is unchanged |
| FacadePass.RequestWrites | Projects/Mercraft.Models/Buildings/Builders/LowDetailBuilder.cs:616-710 | the writes of one issued draw all fall inside the atlas |
| FacadePass.DrawSemanticsOf | Projects/Mercraft.Models/Buildings/Builders/LowDetailBuilder.cs:616-710 | the draw semantics built from the atlas and the sources accept and write exactly what DrawFacadeTexture does |
| FacadePass.RunWrites | Projects/Mercraft.Models/Buildings/Builders/LowDetailBuilder.cs:412-524 | a run of draws writes only inside the atlas when each draw does |
| FacadePass.AllAcceptedAppend | Projects/Mercraft.Models/Buildings/Builders/LowDetailBuilder.cs:412-524 | two runs of draws succeed together exactly when each succeeds |
| FacadePass.AllAcceptedPrefix | Projects/Mercraft.Models/Buildings/Builders/LowDetailBuilder.cs:412-524 | every prefix of a successful run succeeds |
| FacadePass.RunWritesAppend | Projects/Mercraft.Models/Buildings/Builders/LowDetailBuilder.cs:412-524 | the writes of two consecutive runs are the writes of the first followed by those of the second |
| FacadePass.PaintThen | Projects/Mercraft.Models/Buildings/Builders/LowDetailBuilder.cs:412-524 | painting two runs one after the other is painting their concatenation |
| FacadePass.RunOfOne | Projects/Mercraft.Models/Buildings/Builders/LowDetailBuilder.cs:412 | a run of one draw succeeds and writes as that draw does |
| FacadePass.Issue | Projects/Mercraft.Models/Buildings/Builders/LowDetailBuilder.cs:412 | one DrawFacadeTexture call succeeds exactly when its draw is accepted, and then applies its writes |
| FacadePass.IssueIf | Projects/Mercraft.Models/Buildings/Builders/LowDetailBuilder.cs:430-438 | a guarded call draws only when its guard holds, with the same success and writes |
| FacadePass.IssueFour | Projects/Mercraft.Models/Buildings/Builders/LowDetailBuilder.cs:430-471 | the four guarded jamb and row calls succeed exactly when all their draws are accepted, applying their writes in order |
| FacadePass.DrawOpeningBay | Projects/Mercraft.Models/Buildings/Builders/LowDetailBuilder.cs:418-511 | an opening bay's calls (opening, columns, rows, corners) succeed exactly when all its draws are accepted, and apply their writes in the source's order |
| FacadePass.DrawBay | Projects/Mercraft.Models/Buildings/Builders/LowDetailBuilder.cs:384-513 | one bay's calls succeed exactly when its laid-out draws do, and the x position advances by the bay's advance |
| FacadePass.GatherBays | Projects/Mercraft.Models/Buildings/Builders/LowDetailBuilder.cs:346-361 | gathering the bay designs fails exactly when the specification faults, and otherwise yields the designs in pattern order |
| FacadePass.BaysLaidOutPrefix | Projects/Mercraft.Models/Buildings/Builders/LowDetailBuilder.cs:382-514 | the draws of the first c bays are a prefix of the draws of the first n |
| FacadePass.BaysLaidOutIsBaysRequests | Projects/Mercraft.Models/Buildings/Builders/LowDetailBuilder.cs:382-514 | the draws laid out bay by bay are the draws of the repeated pattern |
| FacadePass.DrawNextBay | Projects/Mercraft.Models/Buildings/Builders/LowDetailBuilder.cs:382-514 | drawing bay c extends the painted run by exactly that bay's draws |
| FacadePass.DrawBays | Projects/Mercraft.Models/Buildings/Builders/LowDetailBuilder.cs:382-514 | the bay loop succeeds exactly when the draws of all fitted bays are accepted, and leaves their writes on the atlas in order |
| FacadePass.DrawFloor | Projects/Mercraft.Models/Buildings/Builders/LowDetailBuilder.cs:325-525 | one floor succeeds exactly when its draws (one blank wall, or the fitted bays) are accepted and the floor's bay data does not fault, and then leaves exactly those writes |
| FacadeSlots.EndpointB | Projects/Mercraft.Models/Buildings/Builders/LowDetailBuilder.cs:47 | the second corner of facade f is f + 1, wrapping to corner 0 after the last |
| FacadeSlots.EdgeAt | Projects/Mercraft.Models/Buildings/Builders/LowDetailBuilder.cs:46-52 | an edge of volume v at corner f names two existing plan points |
| FacadeSlots.EdgesOfVolumeShape | Projects/Mercraft.Models/Buildings/Builders/LowDetailBuilder.cs:42-70 | every planned edge of volume v is addressable, belongs to v and lies before the corner bound |
| FacadeSlots.EdgesBeforeShape | Projects/Mercraft.Models/Buildings/Builders/LowDetailBuilder.cs:37-71 | every planned edge of the first v volumes is addressable and belongs to one of them |
| FacadeSlots.OrderedConcat | Projects/Mercraft.Models/Buildings/Builders/LowDetailBuilder.cs:37-71 | joining two ordered runs of edges where every edge of the first comes before every edge of the second keeps the order |
| FacadeSlots.EdgesOfVolumeOrdered | Projects/Mercraft.Models/Buildings/Builders/LowDetailBuilder.cs:42-70 | the edges of one volume come in corner order |
| FacadeSlots.EdgesBeforeOrdered | Projects/Mercraft.Models/Buildings/Builders/LowDetailBuilder.cs:37-71 | the edges of all volumes come in volume order, then corner order |
| FacadeSlots.EdgesOfVolumeComplete | Projects/Mercraft.Models/Buildings/Builders/LowDetailBuilder.cs:42-70 | every visible edge of a volume is planned |
| FacadeSlots.EdgesBeforeComplete | Projects/Mercraft.Models/Buildings/Builders/LowDetailBuilder.cs:37-71 | every visible edge of an earlier volume is planned |
| FacadeSlots.AllVisibleConcat | Projects/Mercraft.Models/Buildings/Builders/LowDetailBuilder.cs:37-71 | joining two runs of visible edges gives a run of visible edges |
| FacadeSlots.EdgesOfVolumeSound | Projects/Mercraft.Models/Buildings/Builders/LowDetailBuilder.cs:44-56 | only visible edges of a volume are planned |
| FacadeSlots.EdgesBeforeSound | Projects/Mercraft.Models/Buildings/Builders/LowDetailBuilder.cs:37-71 | only visible edges are planned |
| FacadeSlots.VisibleEdgesCharacterised | Projects/Mercraft.Models/Buildings/Builders/LowDetailBuilder.cs:44-56 | an edge is planned exactly when its RenderFacade flag is set and its volume rises at least one floor above the edge's floor base, and the planned edges are strictly ordered |
| FacadeSlots.EdgesOfVolumePrefix | Projects/Mercraft.Models/Buildings/Builders/LowDetailBuilder.cs:42-70 | the edges before corner k are a prefix of the edges before corner k' |
| FacadeSlots.EdgesBeforePrefix | Projects/Mercraft.Models/Buildings/Builders/LowDetailBuilder.cs:37-71 | the edges of the first v volumes are a prefix of those of the first v' |
| FacadeSlots.FacadeNumberIndexesEdge | Projects/Mercraft.Models/Buildings/Builders/LowDetailBuilder.cs:279-528 | the facade number reached at a visible edge indexes exactly that edge among the planned edges, so the facade passes and the slot pass agree on it |
| FacadeSlots.FacadeRectShape | Projects/Mercraft.Models/Buildings/Builders/LowDetailBuilder.cs:51-66 | a facade slot sits at the origin, as wide as the edge and as tall as its floors in pixels, and collapses to zero size when the height is negative |
| FacadeSlots.VisibleStep | Projects/Mercraft.Models/Buildings/Builders/LowDetailBuilder.cs:44-66 | one corner's edge, visibility, planned edges and slot are the source's indexA/indexB, floor-base and size computation |
| FacadeSlots.PlannedAppend | Projects/Mercraft.Models/Buildings/Builders/LowDetailBuilder.cs:66-67 | adding the slot of one more planned edge keeps the slots matched to the edges |
| FacadeSlots.PlanEdge | Projects/Mercraft.Models/Buildings/Builders/LowDetailBuilder.cs:44-67 | one corner is planned exactly when it is visible, and then gets its facade slot |
| FacadeSlots.PlanVolumeSlots | Projects/Mercraft.Models/Buildings/Builders/LowDetailBuilder.cs:39-70 | after one volume the slots match the planned edges so far |
| FacadeSlots.PlanFacadeSlots | Projects/Mercraft.Models/Buildings/Builders/LowDetailBuilder.cs:33-71 | one slot per visible edge in order, each the size of its edge, and the facade count equals the slot count |
| FloorPattern.Repeat | Projects/Mercraft.Models/Buildings/Builders/LowDetailBuilder.cs:313-314 | the inner loop adds its unit index once per floor of the unit, none for a non-positive count |
| FloorPattern.PatternReference | Projects/Mercraft.Models/Buildings/Builders/LowDetailBuilder.cs:310-316 | every entry of the reference list names one of the style units seen so far |
| Sequences.Reversed | Projects/Mercraft.Models/Buildings/Builders/LowDetailBuilder.cs:317 | List.Reverse: the same length with entry i taken from the mirrored position |
| FloorPattern.PatternTable | Projects/Mercraft.Models/Buildings/Builders/LowDetailBuilder.cs:306-317 | every entry of the reversed reference list names a style unit of the facade |
| FloorPattern.PatternReferenceLength | Projects/Mercraft.Models/Buildings/Builders/LowDetailBuilder.cs:310-316 | the reference list has one entry per positive floor and, when no count is negative, as many entries as the pattern size |
| FloorPattern.PatternTableLength | Projects/Mercraft.Models/Buildings/Builders/LowDetailBuilder.cs:306-317 | the same for the reversed table |
| FloorPattern.RepeatCount | Projects/Mercraft.Models/Buildings/Builders/LowDetailBuilder.cs:313-314 | the repeated list holds its index exactly max(0, count) times and nothing else |
| FloorPattern.RepeatMultiset | Projects/Mercraft.Models/Buildings/Builders/LowDetailBuilder.cs:313-314 | the repeated list is the multiset of count copies of its index |
| FloorPattern.PatternReferenceCount | Projects/Mercraft.Models/Buildings/Builders/LowDetailBuilder.cs:310-316 | each unit index occurs in the reference list exactly as often as its unit has floors |
| Sequences.ReversedMultiset | Projects/Mercraft.Models/Buildings/Builders/LowDetailBuilder.cs:317 | reversing keeps every entry with its multiplicity |
| FloorPattern.PatternTableCount | Projects/Mercraft.Models/Buildings/Builders/LowDetailBuilder.cs:306-317 | in the table each style unit occurs once per floor of that unit |
| FloorPattern.FloorZeroUsesLastUnit | Projects/Mercraft.Models/Buildings/Builders/LowDetailBuilder.cs:317-328 | because of the reversal, floor 0 takes the last style unit when that unit has a floor |
| FloorPattern.TwoUnitExample | Projects/Mercraft.Models/Buildings/Builders/LowDetailBuilder.cs:306-328 | units of 2 and 1 floors give the table [1, 0, 0]: the ground floor takes the second unit |
| FloorPattern.FloorStyleUnit | Projects/Mercraft.Models/Buildings/Builders/LowDetailBuilder.cs:326-328 | the style unit of floor r, when there is one, is a unit of the facade |
| FloorPattern.FloorStyleAt | Projects/Mercraft.Models/Buildings/Builders/LowDetailBuilder.cs:326-328 | with non-negative floor counts and a positive pattern size, floor r takes the table entry at r modulo the pattern size |
| FloorPattern.FloorStyleCyclic | Projects/Mercraft.Models/Buildings/Builders/LowDetailBuilder.cs:326-328 | then every floor has a style unit and floors a pattern size apart share it |
| FloorPattern.EmptyPatternFaults | Projects/Mercraft.Models/Buildings/Builders/LowDetailBuilder.cs:326 | a pattern size of 0 faults on every floor (the remainder by zero raises) |
| FloorPattern.BuildPatternTable | Projects/Mercraft.Models/Buildings/Builders/LowDetailBuilder.cs:306-317 | the method's pattern size and reversed reference list are the specification's |
| LowDetail.Sources | Projects/Mercraft.Models/Buildings/Builders/LowDetailBuilder.cs:251-272 | one paint source per texture |
| LowDetail.SourceReadable | Projects/Mercraft.Models/Buildings/Builders/LowDetailBuilder.cs:251-271 | an untiled source keeps its texture's pixels, size and tiling and can be sampled exactly when the texture has a size and pixels; a tiled source is resampled to its rounded unit size and can be sampled exactly when that size is positive |
| LowDetail.PrepareSources | Projects/Mercraft.Models/Buildings/Builders/LowDetailBuilder.cs:250-272 | the gathering loop builds exactly the paint sources of the specification |
| LowDetail.TextureWrites | Projects/Mercraft.Models/Buildings/Builders/LowDetailBuilder.cs:248-614 | all writes of the facade pass and the roof pass fall inside the atlas |
| LowDetail.BuildTextures | Projects/Mercraft.Models/Buildings/Builders/LowDetailBuilder.cs:248-614 | the texture pass succeeds exactly when its facades and roofs are accepted, leaving the atlas as the old atlas with the facade writes and then the roof writes |
| LowDetail.ReverseFlipsTriangles | Projects/Mercraft.Models/Buildings/Builders/LowDetailBuilder.cs:165-167 | reversing the triangle list turns triangle j into the last-but-j triangle with its corners in reverse order, so each underside faces down |
| LowDetail.Undersides | Projects/Mercraft.Models/Buildings/Builders/LowDetailBuilder.cs:151-169 | one mesh call per volume |
| LowDetail.Outline | Projects/Mercraft.Models/Buildings/Builders/LowDetailBuilder.cs:155-163 | the underside vertices are the volume's points lifted to 3D, with zero UVs |
| LowDetail.AddUndersides | Projects/Mercraft.Models/Buildings/Builders/LowDetailBuilder.cs:151-169 | the underside loop adds exactly the underside mesh calls of the specification |
| LowDetail.FacadePlaneShape | Projects/Mercraft.Models/Buildings/Builders/LowDetailBuilder.cs:183-212 | a facade plane on submesh 0 has its bottom corners at the edge's ends raised by the floor base and its top corners a wall height above them |
| LowDetail.PlaneUvsInUnitSquare | Projects/Mercraft.Models/Buildings/Builders/LowDetailBuilder.cs:206-210 | a slot inside the atlas maps to UVs inside the unit square, ordered when its size is non-negative |
| LowDetail.PlanesBuiltAppend | Projects/Mercraft.Models/Buildings/Builders/LowDetailBuilder.cs:177-214 | adding the plane of the next visible edge with the next slot keeps planes matched to edges and slots |
| LowDetail.MakeWallPlane | Projects/Mercraft.Models/Buildings/Builders/LowDetailBuilder.cs:195-212 | the plane's corners and UVs are the source's arithmetic on the edge ends, heights and slot |
| LowDetail.PlaneEdge | Projects/Mercraft.Models/Buildings/Builders/LowDetailBuilder.cs:179-213 | one corner gets a plane exactly when it is visible, built from its edge and the slot at the facade index |
| LowDetail.AddVolumePlanes | Projects/Mercraft.Models/Buildings/Builders/LowDetailBuilder.cs:174-214 | after one volume the planes match the visible edges so far and their slots |
| LowDetail.AddFacadePlanes | Projects/Mercraft.Models/Buildings/Builders/LowDetailBuilder.cs:171-215 | one facade plane per visible edge, in order, each with the slot of the same facade number |
| LowDetail.UvRectInUnitSquare | Projects/Mercraft.Models/Buildings/Builders/LowDetailBuilder.cs:222-227 | a packed rectangle inside the atlas gives a UV rectangle inside the unit square |
| LowDetail.RoofUvs | Projects/Mercraft.Models/Buildings/Builders/LowDetailBuilder.cs:218-228 | one UV rectangle per packed rectangle after the facades |
| LowDetail.RoofUvRects | Projects/Mercraft.Models/Buildings/Builders/LowDetailBuilder.cs:218-228 | the loop builds exactly those UV rectangles |
| LowDetail.FlattenInRange | Projects/Mercraft.Models/Buildings/Builders/LowDetailBuilder.cs:82-103 | every texture index of the roof designs names a texture |
| LowDetail.RoofIndices | Projects/Mercraft.Models/Buildings/Builders/LowDetailBuilder.cs:82-103 | the collected roof texture indices all name textures |
| LowDetail.PlannedRects | Projects/Mercraft.Models/Buildings/Builders/LowDetailBuilder.cs:33-103 | the planned rectangles are one per visible facade then one per distinct roof texture |
| LowDetail.LayoutOf | Projects/Mercraft.Models/Buildings/Builders/LowDetailBuilder.cs:105-133 | the sized atlas width is never negative |
| LowDetail.CanvasFor | Projects/Mercraft.Models/Buildings/Builders/LowDetailBuilder.cs:133-135 | the atlas has textureWidth squared pixels |
| LowDetail.BuildMesh | Projects/Mercraft.Models/Buildings/Builders/LowDetailBuilder.cs:149-231 | the mesh step issues exactly the underside, facade-plane and roof calls of the specification |
| LowDetail.PlanAtlas | Projects/Mercraft.Models/Buildings/Builders/LowDetailBuilder.cs:29-133 | the planning half of Build computes exactly the specified layout |
| LowDetail.LayoutFitsAtlas | Projects/Mercraft.Models/Buildings/Builders/LowDetailBuilder.cs:33-133 | when the packer keeps the rectangles' sizes inside its bin without overlap, one slot per planned rectangle, the atlas is at least 2 wide, every slot keeps its planned size times the scale, lies inside the atlas and overlaps no other slot |
| LowDetail.PlannedRectsOrder | Projects/Mercraft.Models/Buildings/Builders/LowDetailBuilder.cs:33-103 | slot k is the rectangle of visible edge k and the roof slots follow in first-encounter order of their texture |
| LowDetail.MeshUvsInUnitSquare | Projects/Mercraft.Models/Buildings/Builders/LowDetailBuilder.cs:206-228 | under the packer's contract every facade and roof UV lies inside the unit square |
| LowDetail.AcceptedFitsSlots | Projects/Mercraft.Models/Buildings/Builders/LowDetailBuilder.cs:294 | a facade pass that accepted n edges read n slots, so n is at most the slot count |
| LowDetail.Build | Projects/Mercraft.Models/Buildings/Builders/LowDetailBuilder.cs:27-237 | for a well-formed building, Build raises no exception exactly when the specified build is accepted; then the atlas width, pixels and mesh calls are the specified ones |
| Pixels.ApplyWrites | Projects/Mercraft.Models/Buildings/Builders/LowDetailBuilder.cs:578-706 | applying a run of in-bounds pixel writes keeps the atlas size |
| Pixels.LastWriteTo | Projects/Mercraft.Models/Buildings/Builders/LowDetailBuilder.cs:578-706 | the last write to pixel k, or -1 when none writes it |
| Pixels.ApplyWritesLastWins | Projects/Mercraft.Models/Buildings/Builders/LowDetailBuilder.cs:578-706 | after a run of writes each pixel holds the colour of the last write to it, or its old colour |
| Pixels.WritesInBoundsAppend | Projects/Mercraft.Models/Buildings/Builders/LowDetailBuilder.cs:578-706 | two runs of writes are in bounds together exactly when each is |
| Pixels.ApplyWritesAppend | Projects/Mercraft.Models/Buildings/Builders/LowDetailBuilder.cs:578-706 | applying two runs is applying the first, then the second |
| Pixels.ApplyWritesSnoc | Projects/Mercraft.Models/Buildings/Builders/LowDetailBuilder.cs:578 | one more write sets exactly its pixel |
| Pixels.ApplyWritesCons | Projects/Mercraft.Models/Buildings/Builders/LowDetailBuilder.cs:662 | a run that starts with one write is that pixel set, then the rest |
| Pixels.Round | Projects/Mercraft.Models/Buildings/Builders/LowDetailBuilder.cs:94-95 | Mathf.RoundToInt lands within one half of its argument |
| Pixels.FloorInt | Projects/Mercraft.Models/Buildings/Builders/LowDetailBuilder.cs:533 | Mathf.FloorToInt is the greatest integer not above its argument |
| Pixels.Clamp | Projects/Mercraft.Models/Buildings/Builders/LowDetailBuilder.cs:659-660 | Mathf.Clamp stays between its bounds and keeps a value already between them |
| Pixels.CsRem | Projects/Mercraft.Models/Buildings/Builders/LowDetailBuilder.cs:326 | C#'s remainder takes the sign of the dividend, is smaller than the divisor in magnitude and differs from the dividend by a multiple of it |
| Pixels.CsRemNonNegative | Projects/Mercraft.Models/Buildings/Builders/LowDetailBuilder.cs:326 | for a non-negative dividend and a positive divisor C#'s remainder is the mathematical one |
| Polygons.LastIndexOf | Projects/Mercraft.Models/Primitives/Polygon.cs:61-72 | the index of the last vertex equal to the point, or -1 exactly when the point is not a vertex |
| Polygons.DiagonalAsWrittenValue | Projects/Mercraft.Models/Primitives/Polygon.cs:226-260 | the as-written Diagonal returns true for every non-empty polygon |
| Polygons.CrossAntisymmetric | Projects/Mercraft.Models/Primitives/Polygon.cs:139-154 | swapping the two points negates the cross product |
| Polygons.DegenerateLineCrossesNothing | Projects/Mercraft.Models/Primitives/Polygon.cs:236-253 | a line from a point to itself is parallel to every edge and meets no edge interior |
| Sequences.ReversedTwice | Projects/Mercraft.Models/Primitives/Polygon.cs:347-360 | reversing the vertex order twice restores it |
| Polygons.ChainSumReversed | Projects/Mercraft.Models/Primitives/Polygon.cs:139-154 | the shoelace chain of the reversed points is the negated chain |
| Polygons.ReversingNegatesSignedArea | Projects/Mercraft.Models/Primitives/Polygon.cs:139-187 | reversing the vertex order negates the signed area and keeps the area |
| Polygons.DirectionCountByPositives | Projects/Mercraft.Models/Primitives/Polygon.cs:367-396 | the direction count is twice the positive turns minus the number of vertices |
| Polygons.TriangleShoelace | Projects/Mercraft.Models/Primitives/Polygon.cs:194-212 | the shoelace sum of a triangle is its turn's cross product |
| Polygons.Polygon.constructor | Projects/Mercraft.Models/Primitives/Polygon.cs:31-54 | fewer than three points leave the polygon without vertices (the exception is caught); otherwise the vertices are a fresh copy of the points |
| Polygons.Polygon.VertexIndex | Projects/Mercraft.Models/Primitives/Polygon.cs:61-72 | the loop returns the last index holding the vertex, or -1 |
| Polygons.Polygon.PreviousPoint | Projects/Mercraft.Models/Primitives/Polygon.cs:81-99 | null exactly for a point that is not a vertex; otherwise the vertex before its last occurrence, wrapping to the last vertex |
| Polygons.Polygon.NextPoint | Projects/Mercraft.Models/Primitives/Polygon.cs:107-126 | null exactly for a point that is not a vertex; otherwise the vertex after its last occurrence, wrapping to the first vertex |
| Polygons.Polygon.PolygonVertex | Projects/Mercraft.Models/Primitives/Polygon.cs:332-341 | true exactly when the point is a vertex |
| Polygons.Polygon.PolygonArea | Projects/Mercraft.Models/Primitives/Polygon.cs:139-154 | the area is the absolute value of the shoelace signed area |
| Polygons.Polygon.SignedPolygonArea | Projects/Mercraft.Models/Primitives/Polygon.cs:172-187 | the static overload's loop computes the shoelace signed area |
| Polygons.Polygon.PolygonVertexType | Projects/Mercraft.Models/Primitives/Polygon.cs:194-212 | a point that is not a vertex is an error point; a convex vertex has a negative triangle area with its neighbours and a concave one a positive area |
| Polygons.VertexTypeByTurn | Projects/Mercraft.Models/Primitives/Polygon.cs:194-212 | a vertex is convex, concave or an error point exactly when the turn at its predecessor is negative, positive or zero |
| Polygons.Polygon.DiagonalAsWritten | Projects/Mercraft.Models/Primitives/Polygon.cs:226-260 | the loop as written returns true exactly when the polygon has a vertex |
| Polygons.Polygon.Diagonal | Projects/Mercraft.Models/Primitives/Polygon.cs:226-260 | corrected: true exactly when the segment from `vertex1` to `vertex2` crosses no polygon edge strictly inside both, that is with both line parameters of the Bourke intersection test in (0, 1) |
| Polygons.DiagonalDiscrepancy | Projects/Mercraft.Models/Primitives/Polygon.cs:226-260 | on a concave pentagon the as-written Diagonal accepts a line between two vertices that meets an edge interior, which the corrected one rejects |
| Polygons.Polygon.PrincipalVertexAsWritten | Projects/Mercraft.Models/Primitives/Polygon.cs:315-327 | with the as-written Diagonal every vertex is principal |
| Polygons.Polygon.PrincipalVertex | Projects/Mercraft.Models/Primitives/Polygon.cs:306-327 | corrected: a vertex is principal exactly when the segment between its neighbours is a diagonal |
| Polygons.PrincipalVertexDiscrepancy | Projects/Mercraft.Models/Primitives/Polygon.cs:306-327 | on the concave pentagon, vertex (0,0) is principal as written but not when corrected, because the segment between its neighbours crosses an edge; vertex (4,4) is principal when corrected |
| Polygons.Polygon.GetPolygonType | Projects/Mercraft.Models/Primitives/Polygon.cs:271-305 | concave exactly when the turns take both signs |
| Polygons.Polygon.ReverseVerticesDirection | Projects/Mercraft.Models/Primitives/Polygon.cs:347-360 | the vertices end up in reverse order |
| Polygons.Polygon.VerticesDirection | Projects/Mercraft.Models/Primitives/Polygon.cs:367-396 | clockwise exactly when more than half the turns are positive, counter-clockwise exactly when fewer are, unknown otherwise |
| Polygons.Polygon.CountDirection | Projects/Mercraft.Models/Primitives/Polygon.cs:367-396 | the counting loop classifies by the direction count |
| Polygons.Polygon.PointsDirection | Projects/Mercraft.Models/Primitives/Polygon.cs:405-438 | unknown for fewer than three points; otherwise classified as VerticesDirection does |
| Polygons.Polygon.ReversePointsDirection | Projects/Mercraft.Models/Primitives/Polygon.cs:443-456 | the points end up in reverse order |
| AtlasContext.TextureDataContext.constructor | Projects/Mercraft.Models/Buildings/Builders/LowDetailBuilder.cs:15-25 | the context's lists and scale are the given ones, the colour buffer is a fresh all-clear square of the given width |
| AtlasContext.TextureDataContext.CanvasOf | Projects/Mercraft.Models/Buildings/Builders/LowDetailBuilder.cs:15-25 | the canvas view carries the context's width, size and scale |
| RoofSlots.Dedup | Projects/Mercraft.Models/Buildings/Builders/LowDetailBuilder.cs:80-103 | the distinct texture indices are exactly the indices that occur |
| RoofSlots.FirstIndex | Projects/Mercraft.Models/Buildings/Builders/LowDetailBuilder.cs:86 | the first position of an element that occurs |
| RoofSlots.DedupNoDuplicates | Projects/Mercraft.Models/Buildings/Builders/LowDetailBuilder.cs:86-99 | the Contains check keeps each texture index once |
| RoofSlots.DedupFirstEncounterOrder | Projects/Mercraft.Models/Buildings/Builders/LowDetailBuilder.cs:82-103 | the distinct indices keep the order in which the roofs first use them |
| RoofSlots.FirstIndexPrefix | Projects/Mercraft.Models/Buildings/Builders/LowDetailBuilder.cs:82-103 | extending a sequence keeps the first position of an element already there |
| RoofSlots.DedupSnoc | Projects/Mercraft.Models/Buildings/Builders/LowDetailBuilder.cs:86-99 | one more index is appended exactly when it is new |
| RoofSlots.FlattenSnoc | Projects/Mercraft.Models/Buildings/Builders/LowDetailBuilder.cs:82-84 | the texture indices of one roof more are the old ones followed by that roof's |
| RoofSlots.SlotsMatchSnoc | Projects/Mercraft.Models/Buildings/Builders/LowDetailBuilder.cs:96-99 | adding the rectangle, the texture and the index of a new texture keeps the three lists in step |
| RoofSlots.RoofIndexInRange | Projects/Mercraft.Models/Buildings/Builders/LowDetailBuilder.cs:88 | every roof texture index names a texture of the building |
| RoofSlots.MeasureRoofTexture | Projects/Mercraft.Models/Buildings/Builders/LowDetailBuilder.cs:89-96 | the roof slot is the rounded extent of the roof mesh's UVs at 100 pixels per metre |
| RoofSlots.VisitRoofTexture | Projects/Mercraft.Models/Buildings/Builders/LowDetailBuilder.cs:84-101 | one texture index updates the distinct list and keeps the slot lists in step |
| RoofSlots.AddRoofDesign | Projects/Mercraft.Models/Buildings/Builders/LowDetailBuilder.cs:82-103 | one roof's texture indices update the distinct list and keep the slot lists in step |
| RoofSlots.PlanRoofSlots | Projects/Mercraft.Models/Buildings/Builders/LowDetailBuilder.cs:80-103 | the roof texture slots are the distinct roof texture indices in first-use order, each with its texture and its measured rectangle |
| RoofPass.StatusOf | Projects/Mercraft.Models/Buildings/Builders/LowDetailBuilder.cs:531-613 | a pass faults, stops at the early return, or completes |
| RoofPass.Then | Projects/Mercraft.Models/Buildings/Builders/LowDetailBuilder.cs:531-613 | a pass that did not complete ends the sequence; otherwise the second pass decides the status |
| RoofPass.ThenApply | Projects/Mercraft.Models/Buildings/Builders/LowDetailBuilder.cs:531-613 | applying the writes of two completed passes in sequence is applying them in turn |
| RoofPass.ThenApplySound | Projects/Mercraft.Models/Buildings/Builders/LowDetailBuilder.cs:531-613 | sequencing two passes keeps their writes in bounds |
| RoofPass.RoofPadStep | Projects/Mercraft.Models/Buildings/Builders/LowDetailBuilder.cs:583-609 | a padding loop writes its first pixel, then the rest, and faults exactly when some target leaves the buffer |
| RoofPass.CellOutcome | Projects/Mercraft.Models/Buildings/Builders/LowDetailBuilder.cs:561-610 | one target pixel's copy writes only in-bounds pixels |
| RoofPass.RunSound | Projects/Mercraft.Models/Buildings/Builders/LowDetailBuilder.cs:557-612 | a run of sound steps is sound |
| RoofPass.RunAbsorbs | Projects/Mercraft.Models/Buildings/Builders/LowDetailBuilder.cs:557-612 | once a run faults or returns early, later steps change nothing |
| RoofPass.ColumnOutcome | Projects/Mercraft.Models/Buildings/Builders/LowDetailBuilder.cs:559-611 | one column's copy writes only in-bounds pixels |
| RoofPass.ColumnsOutcome | Projects/Mercraft.Models/Buildings/Builders/LowDetailBuilder.cs:557-612 | the whole copy of a texture writes only in-bounds pixels |
| RoofPass.RoofCopyOf | Projects/Mercraft.Models/Buildings/Builders/LowDetailBuilder.cs:538-554 | a roof texture that is not skipped has a copyable shape |
| RoofPass.TextureOutcome | Projects/Mercraft.Models/Buildings/Builders/LowDetailBuilder.cs:536-612 | one roof texture's pass writes only in-bounds pixels |
| RoofPass.TextureStep | Projects/Mercraft.Models/Buildings/Builders/LowDetailBuilder.cs:534-613 | each loop iteration writes only in-bounds pixels |
| RoofPass.PassOutcome | Projects/Mercraft.Models/Buildings/Builders/LowDetailBuilder.cs:531-613 | the roof pass over the first n textures writes only in-bounds pixels |
| RoofPass.SkippedWritesNothing | Projects/Mercraft.Models/Buildings/Builders/LowDetailBuilder.cs:542-553 | a texture with a zero max UV tile or a zero source size is skipped and writes nothing |
| RoofPass.SourceIndexInRepeat | Projects/Mercraft.Models/Buildings/Builders/LowDetailBuilder.cs:565-567 | the source pixel tiles the resampled texture and lies inside it |
| RoofPass.NoReadFault | Projects/Mercraft.Models/Buildings/Builders/LowDetailBuilder.cs:565-577 | with a correctly sized resampled buffer no source read faults; the copy returns early exactly when the target pixel lies past the atlas |
| RoofPass.CellWritesSource | Projects/Mercraft.Models/Buildings/Builders/LowDetailBuilder.cs:570-578 | a completed cell copy first writes the source colour to the target pixel |
| RoofPass.CopyPadding | Projects/Mercraft.Models/Buildings/Builders/LowDetailBuilder.cs:583-609 | the padding loop completes exactly when all its targets are in bounds, and then writes the colour to each |
| RoofPass.CopyPaddingIf | Projects/Mercraft.Models/Buildings/Builders/LowDetailBuilder.cs:581-609 | a guarded padding loop fills as specified, and writes nothing when the guard is false |
| RoofPass.CopyCellPadding | Projects/Mercraft.Models/Buildings/Builders/LowDetailBuilder.cs:580-610 | the four padding loops of one cell produce the specified writes |
| RoofPass.CopyCell | Projects/Mercraft.Models/Buildings/Builders/LowDetailBuilder.cs:561-610 | one cell's copy has the status and the buffer of its specified outcome |
| RoofPass.CopyColumn | Projects/Mercraft.Models/Buildings/Builders/LowDetailBuilder.cs:559-611 | the inner loop has the status and the buffer of its specified outcome |
| RoofPass.CopyColumns | Projects/Mercraft.Models/Buildings/Builders/LowDetailBuilder.cs:557-612 | the nested loops have the status and the buffer of their specified outcome |
| RoofPass.CopyRoofTexture | Projects/Mercraft.Models/Buildings/Builders/LowDetailBuilder.cs:536-612 | one roof texture's copy has the status and the buffer of its specified outcome |
| RoofPass.CopyNextRoofTexture | Projects/Mercraft.Models/Buildings/Builders/LowDetailBuilder.cs:534-613 | one more iteration extends the pass's outcome by one texture |
| RoofPass.CopyRoofTextures | Projects/Mercraft.Models/Buildings/Builders/LowDetailBuilder.cs:531-613 | the roof pass has the status and the buffer of its specified outcome: it faults, returns early at the first target past the atlas, or applies every write in order |
| ZoneLoading.Step | Projects/Mercraft.Core/Zones/ZoneLoader.cs:29-47 | a geographic position change sets the null point and forgets every zone; a map position change keeps the null point, changes nothing when a zone is loaded and otherwise loads the tile at that position relative to the null point |
| ZoneLoading.RunKeepsAtMostOneZone | Projects/Mercraft.Core/Zones/ZoneLoader.cs:29-56 | whatever the events, a loader never holds more than one zone |
| ZoneLoading.MapEventsKeepLoadedZone | Projects/Mercraft.Core/Zones/ZoneLoader.cs:31-32 | once a zone is loaded, map position changes alone change nothing |
| ZoneLoading.ReloadUsesNewNullPoint | Projects/Mercraft.Core/Zones/ZoneLoader.cs:35-46 | after a geographic position change the next map position change loads the tile relative to the new null point |
| ZoneLoading.ZoneLoader.constructor | Projects/Mercraft.Core/Zones/ZoneLoader.cs:17-27 | a new loader keeps its tile provider and holds no zone |
| ZoneLoading.ZoneLoader.CheckPosition | Projects/Mercraft.Core/Zones/ZoneLoader.cs:52-56 | true exactly when a zone is loaded |
| ZoneLoading.ZoneLoader.OnMapPositionChanged | Projects/Mercraft.Core/Zones/ZoneLoader.cs:29-39 | the fields change as Step says for a map position event, and at most one zone stays loaded |
| ZoneLoading.ZoneLoader.OnGeoPositionChanged | Projects/Mercraft.Core/Zones/ZoneLoader.cs:41-47 | the fields change as Step says for a geographic position event |
| SrtmElevation.CellKey | Projects/Mercraft.Core/Elevation/Srtm/SrtmElevationProvider.cs:29-35 | the cell index is the coordinate truncated toward zero |
| SrtmElevation.KeyOfSmallCoordinate | Projects/Mercraft.Core/Elevation/Srtm/SrtmElevationProvider.cs:29-35 | every coordinate strictly between -1 and 1 falls into cell 0 |
| SrtmElevation.DigitChar | Projects/Mercraft.Core/Elevation/Srtm/SrtmElevationProvider.cs:43-47 | a decimal digit |
| SrtmElevation.Digits | Projects/Mercraft.Core/Elevation/Srtm/SrtmElevationProvider.cs:43-47 | the decimal digits of a number, as many as its magnitude needs |
| SrtmElevation.PadDigits | Projects/Mercraft.Core/Elevation/Srtm/SrtmElevationProvider.cs:45-47 | the D2 and D3 formats: at least the given number of digits |
| SrtmElevation.CellFilename | Projects/Mercraft.Core/Elevation/Srtm/SrtmElevationProvider.cs:43-47 | the file name starts with S or N by the sign of the latitude and ends in .hgt |
| SrtmElevation.ValueOfDigits | Projects/Mercraft.Core/Elevation/Srtm/SrtmElevationProvider.cs:43-47 | reading back a number's digits gives the number |
| SrtmElevation.ValueOfZeros | Projects/Mercraft.Core/Elevation/Srtm/SrtmElevationProvider.cs:45-47 | leading zeros alone read as zero |
| SrtmElevation.ValueOfZerosPrefix | Projects/Mercraft.Core/Elevation/Srtm/SrtmElevationProvider.cs:45-47 | leading zeros do not change the value |
| SrtmElevation.PadDigitsValue | Projects/Mercraft.Core/Elevation/Srtm/SrtmElevationProvider.cs:45-47 | padded digits read back as the number and take exactly two or three places in range |
| SrtmElevation.FilenameNamesCell | Projects/Mercraft.Core/Elevation/Srtm/SrtmElevationProvider.cs:43-47 | the file name of a cell within the SRTM range parses back to that cell |
| SrtmElevation.FilenameInjective | Projects/Mercraft.Core/Elevation/Srtm/SrtmElevationProvider.cs:43-47 | two cells within range never share a file name |
| SrtmElevation.NearZeroUsesNorthEastFile | Projects/Mercraft.Core/Elevation/Srtm/SrtmElevationProvider.cs:29-47 | a point just south-west of the origin reads cell N00E000.hgt, because the key truncates and the sign is lost at zero |
| SrtmElevation.FindCell | Projects/Mercraft.Core/Elevation/Srtm/SrtmElevationProvider.cs:37-41 | the first loaded cell with both keys, or None exactly when no loaded cell has them |
| SrtmElevation.Lookup | Projects/Mercraft.Core/Elevation/Srtm/SrtmElevationProvider.cs:37-56 | a loaded cell is reused and the list is kept; otherwise the cell's file is opened and appended when it exists, and the lookup raises (None, list unchanged) when it does not |
| SrtmElevation.LookupKeepsKeysDistinct | Projects/Mercraft.Core/Elevation/Srtm/SrtmElevationProvider.cs:37-56 | the loaded cells never hold two cells with the same keys, and the cell returned is the point's cell |
| SrtmElevation.SecondLookupHits | Projects/Mercraft.Core/Elevation/Srtm/SrtmElevationProvider.cs:37-56 | asking again for the same point reuses the cell loaded by the first lookup and loads nothing |
| SrtmElevation.SrtmElevationProvider.constructor | Projects/Mercraft.Core/Elevation/Srtm/SrtmElevationProvider.cs:21-25 | a new provider holds no cell |
| SrtmElevation.SrtmElevationProvider.GetElevation | Projects/Mercraft.Core/Elevation/Srtm/SrtmElevationProvider.cs:27-57 | the cell and the new list of loaded cells are those of Lookup |
| XmlSimpleConverter.TagsOf | Mercraft.Maps.Osm/Formats/Xml/XmlSimpleConverter.cs:232-244 | null for a missing or empty tag array; otherwise one tag per entry with its key and value, in order |
| XmlSimpleConverter.NodeIdsOf | Mercraft.Maps.Osm/Formats/Xml/XmlSimpleConverter.cs:128-136 | node ids are null for a missing or empty nd array; otherwise every reference in order |
| XmlSimpleConverter.MembersOf | Mercraft.Maps.Osm/Formats/Xml/XmlSimpleConverter.cs:191-227 | members are null for a missing or empty member array; otherwise one converted member per entry, in order |
| XmlSimpleConverter.VisibleUnlessHidden | Mercraft.Maps.Osm/Formats/Xml/XmlSimpleConverter.cs:29-37 | an entity is invisible exactly when visible is specified as false, for nodes, ways and relations alike |
| XmlSimpleConverter.SpecifiedValuesCopied | Mercraft.Maps.Osm/Formats/Xml/XmlSimpleConverter.cs:17-70 | each optional attribute is set exactly when it is specified, to its value; the user name is always copied |
| XmlSimpleConverter.UnspecifiedValuesIgnored | Mercraft.Maps.Osm/Formats/Xml/XmlSimpleConverter.cs:13-76 | the value behind an unspecified attribute does not affect the converted node |
| XmlSimpleConverter.MembersCopied | Mercraft.Maps.Osm/Formats/Xml/XmlSimpleConverter.cs:192-227 | each member keeps its reference when specified and its role, and its type gives a new node for node and a new way for way and for relation |
| XmlSimpleConverter.ConvertToTags | Mercraft.Maps.Osm/Formats/Xml/XmlSimpleConverter.cs:232-244 | the loop builds the tag list TagsOf describes |
| XmlSimpleConverter.ConvertFields | Mercraft.Maps.Osm/Formats/Xml/XmlSimpleConverter.cs:13-70 | the common attribute copy gives the fields FieldsOf describes |
| XmlSimpleConverter.ConvertNode | Mercraft.Maps.Osm/Formats/Xml/XmlSimpleConverter.cs:13-76 | converting a node gives its fields, its specified coordinates and its tags |
| XmlSimpleConverter.ConvertWay | Mercraft.Maps.Osm/Formats/Xml/XmlSimpleConverter.cs:78-139 | converting a way gives its fields, its tags and its node ids |
| XmlSimpleConverter.ConvertRelation | Mercraft.Maps.Osm/Formats/Xml/XmlSimpleConverter.cs:141-230 | converting a relation gives its fields, its tags and its members |
| MapCssVisiting.FirstNonNull | Projects/Mercraft.Core/MapCss/Visitors/MapCssVisitor.cs:93-94 | the first present value, present exactly when some value is |
| MapCssVisiting.VisitSelectorFirst | Projects/Mercraft.Core/MapCss/Visitors/MapCssVisitor.cs:91-95 | a selector is built exactly when some sub-visitor builds one, and it is the first such sub-visitor's |
| MapCssVisiting.VisitDeclarationFirst | Projects/Mercraft.Core/MapCss/Visitors/MapCssVisitor.cs:97-101 | a declaration is built exactly when some sub-visitor builds one, and it is the first such sub-visitor's |
| MapCssVisiting.SelectorsOf | Projects/Mercraft.Core/MapCss/Visitors/MapCssVisitor.cs:48-67 | a canvas selector gives the one canvas entry; otherwise one entry per child after the type, each the visited selector for that type |
| MapCssVisiting.DeclarationCount | Projects/Mercraft.Core/MapCss/Visitors/MapCssVisitor.cs:77 | the length of the leading run of DECLARATION children |
| MapCssVisiting.DeclarationsOf | Projects/Mercraft.Core/MapCss/Visitors/MapCssVisitor.cs:74-84 | a block gives one visited declaration per leading DECLARATION child and nothing else does |
| MapCssVisiting.LeafFreeIff | Projects/Mercraft.Core/MapCss/Visitors/MapCssVisitor.cs:48-50 | the recursive leaf test agrees with its quantified form |
| MapCssVisiting.LastOther | Projects/Mercraft.Core/MapCss/Visitors/MapCssVisitor.cs:69-71 | the last child that is not a SIMPLE_SELECTOR, or None when every child is one |
| MapCssVisiting.MatchAllFromLastOther | Projects/Mercraft.Core/MapCss/Visitors/MapCssVisitor.cs:71 | MatchAll ends true exactly when the last child that is not a SIMPLE_SELECTOR is the child at index 1 |
| MapCssVisiting.CanvasRule | Projects/Mercraft.Core/MapCss/Visitors/MapCssVisitor.cs:52-84 | a canvas rule followed by a block has the canvas selector, the block's declarations, and MatchAll set |
| MapCssVisiting.RulesAreRuleChildren | Projects/Mercraft.Core/MapCss/Visitors/MapCssVisitor.cs:30-36 | the styled children are RULE children, and every RULE child is styled |
| MapCssVisiting.RulesAppend | Projects/Mercraft.Core/MapCss/Visitors/MapCssVisitor.cs:30-36 | the RULE children of two child lists are those of the first, then those of the second |
| MapCssVisiting.CollectAll | Projects/Mercraft.Core/MapCss/Visitors/MapCssVisitor.cs:30-36 | every element mapped in order, present exactly when every element's value is |
| MapCssVisiting.CollectAllSnoc | Projects/Mercraft.Core/MapCss/Visitors/MapCssVisitor.cs:34-35 | one more present value is appended |
| MapCssVisiting.StyleFunction | Projects/Mercraft.Core/MapCss/Visitors/MapCssVisitor.cs:34 | the style builder as a function value is StyleOf |
| MapCssVisiting.StylesOfRules | Projects/Mercraft.Core/MapCss/Visitors/MapCssVisitor.cs:30-36 | the styles of a list of rules are present exactly when every rule's style is, and are those styles in order |
| MapCssVisiting.VisitTreeStyles | Projects/Mercraft.Core/MapCss/Visitors/MapCssVisitor.cs:27-40 | a stylesheet is built exactly when the root has children and every RULE child's style is built; it holds one style per RULE child, in order |
| MapCssVisiting.WalkStaysFailed | Projects/Mercraft.Core/MapCss/Visitors/MapCssVisitor.cs:30-36 | once the walk raises it stays raised |
| MapCssVisiting.WalkAgreesWithRules | Projects/Mercraft.Core/MapCss/Visitors/MapCssVisitor.cs:30-36 | the loop's walk over the first n children is the styles of their RULE children |
| MapCssVisiting.VisitFaultsOnFaultyRule | Projects/Mercraft.Core/MapCss/Visitors/MapCssVisitor.cs:30-36 | one RULE child whose style raises makes the whole visit raise |
| MapCssVisiting.VisitSimpleSelector | Projects/Mercraft.Core/MapCss/Visitors/MapCssVisitor.cs:48-67 | the selector loop builds the selectors SelectorsOf describes |
| MapCssVisiting.VisitDeclarations | Projects/Mercraft.Core/MapCss/Visitors/MapCssVisitor.cs:74-84 | the declaration loop builds the declarations DeclarationsOf describes |
| MapCssVisiting.VisitStyle | Projects/Mercraft.Core/MapCss/Visitors/MapCssVisitor.cs:42-88 | the rule loop builds StyleOf: None on a leaf rule or a SIMPLE_SELECTOR leaf, otherwise the selectors, the declarations and MatchAll |
| MapCssVisiting.Visit | Projects/Mercraft.Core/MapCss/Visitors/MapCssVisitor.cs:27-40 | the root loop builds the styles VisitTree describes |

## Left out

- Floating point. Metres and rectangle coordinates are exact reals. `Mathf.Log` and `Mathf.Pow`
  in the power-of-two step are replaced by an integer specification (`AtlasSizing.NextPowerOfTwo`).
  Infinities, NaN and float rounding error are not modelled.
- Pixels.Round: rounds halves up, while Unity's `Mathf.RoundToInt` rounds halves to the even
  integer. The two differ only on exact halves.
- RoofPass.Ratio: a float division by zero gives an infinity or NaN in the source. The model
  takes 0, so it leaves the texture's source size 0 and the texture skipped.
- 32-bit integer overflow is not modelled. This covers pixel index arithmetic, the `(int)` casts
  in `SrtmElevationProvider.GetElevation` and `Math.Abs(int.MinValue)`.
- Unity engine work: the `Texture2D` creation, `SetPixels32`, `Apply`, `DestroyImmediate` and
  `Debug.Log`. They have no effect on the computed buffer or mesh data.
- The rectangle packer, `TextureScale.NearestNeighbourSample`, `RoofBuilder`, the mesh class,
  `Plan.GetFacadeFloorHeight`, `GetTrianglesBySectorBase`, `Vector2.Distance` and the `Vector3`
  extension. Their code is not part of this model, so they are function-valued inputs.
  `LowDetail.BuildMesh` records the mesh calls as data instead of building a mesh.
- Polygon coordinates are integers, so `SamePoint` is `==` and every area and cross product is
  exact. `ConstantValue.SmallValue` is the parameter `smallValue`.
- Polygons.Polygon: every instance member after the constructor requires
  `vertices != null`. `Polygon(Vector2[])` catches its own exception for fewer than three
  points and leaves the vertex array null (Polygon.cs:31-54), which the constructor models.
  Every later member then reads `m_aVertices.Length` (for example Polygon.cs:65 and 142) and
  raises a NullReferenceException. The model does not describe that exception.
- The parameterless `Polygon()` constructor and the vertex indexer `this[int]` are plain field
  accessors and are not modelled.
- ZoneLoader: `Zone.Build`, the floor builder and the scene model visitors are not modelled.
  `TileProvider.GetTile` is the function `tileProvider`, and the map position is a pair of
  reals.
- SrtmElevation.SrtmElevationProvider.GetElevation: returns the data cell that answers the
  query, not the elevation. `SrtmDataCell.GetElevation` reads the `.hgt` file, and its code is
  not part of this model.
- SrtmElevationProvider I/O: `Path.Combine` and the data directory set by `Configure` are not
  modelled, so the file name stands for the file path. `File.Exists` is the parameter
  `fileExists`. The `GeoCoordinate` overload of `GetElevation`, which only forwards, is not
  modelled.
- MapCssVisitor: the bodies of `SelectorMapCssVisitor` and `DeclarationMapCssVisitor` are not
  part of this model; sub-visitors are pairs of functions.
- MapCssVisitor: the Antlr tree is a datatype, and every `as CommonTree` cast is assumed to
  succeed. A null result of `VisitSelector` or `VisitDeclaration` is kept in the lists as `None`.
- XmlSimpleConverter: entity properties that the converter leaves unset are `None`, and
  timestamps are integers. The `tag`, `nd` and `member` arrays hold no null elements, and the
  `k`, `v` and `role` strings are never null. A null element raises in the source
  (XmlSimpleConverter.cs:134, 200 and 240); the model does not represent that case.
- BuildingData.WellFormed: `LowDetail.Build` and the members of `FacadeSlots`,
  `FacadeComposite` and `RoofSlots` require that every outline point index names a plan point, that
  `RenderFacade` has an entry per outline edge, and that every roof texture value names a
  texture. The building generator guarantees this shape. On data without it the source raises
  (`plan.Points[...]` at LowDetailBuilder.cs:48-49, 161, 183-184 and 292-293,
  `RenderFacade[f]` at lines 44, 179 and 286, `data.Textures[...]` at line 88). The model does
  not describe those exceptions.
- FacadePass.DrawBays: after an exception nothing is claimed about the atlas buffer, because
  the exception leaves `Build`.

## Findings

| source | as written | input that shows it | evidently intended | confidence | as-written member | corrected member |
|---|---|---|---|---|---|---|
| Projects/Mercraft.Models/Primitives/Polygon.cs:226-260 | `Diagonal` builds its line from `vertex1` to `vertex1`, so the line is degenerate and no edge is ever crossed. It also resets the flag on every edge, so at most the closing edge could decide. The result is true for every non-empty polygon. | the pentagon (0,0), (4,0), (4,4), (2,1), (0,4) with the line from (4,0) to (0,4), which crosses the edge (4,4)-(2,1) at (2.4, 1.6) | true exactly when the segment from `vertex1` to `vertex2` crosses the interior of no polygon edge | high (not executed) | Polygons.Polygon.DiagonalAsWritten | Polygons.Polygon.Diagonal |
| Projects/Mercraft.Models/Primitives/Polygon.cs:315-327 | because it relies on `Diagonal`, `PrincipalVertex` is true of every vertex | vertex (0,0) of the pentagon above: the segment between its neighbours (0,4) and (4,0) crosses the edge (4,4)-(2,1) at (2.4, 1.6) | a vertex is principal exactly when the segment between its neighbours is a diagonal | high (not executed) | Polygons.PrincipalVertexDiscrepancy | Polygons.Polygon.PrincipalVertex |
