/** The building description the low-detail builder reads (Buildings/Entities): the plan with
    its points and volumes, the facade and bay designs, the textures and the roofs. Lengths are
    metres as exact reals; collaborators whose code is not part of this model (Plan queries,
    style lookup, Vector2.Distance, the rectangle packer, the resampler, the roof mesh) are
    function-valued fields. */
module BuildingData {
  import opened Pixels

  /** The builder's constants: atlas pixels per metre, padding handed to the packer, and the
      largest atlas width before the rectangles are scaled down. */
  const PixelsPerMeter: int := 100
  const AtlasPadding: int := 16
  const MaximumTextureSize: int := 1024

  datatype Vec2 = Vec2(x: real, y: real)

  /** UnityEngine.Vector3, with the sums and the upward vector the mesh step uses. */
  datatype Vec3 = Vec3(x: real, y: real, z: real) {
    function Plus(b: Vec3): Vec3 { Vec3(x + b.x, y + b.y, z + b.z) }
    function Minus(b: Vec3): Vec3 { Vec3(x - b.x, y - b.y, z - b.z) }
  }

  /** Vector3.up * h. */
  function Up(h: real): Vec3 { Vec3(0.0, h, 0.0) }

  /** UnityEngine.Rect: a position and a size. */
  datatype Rect = Rect(x: real, y: real, width: real, height: real) {
    function XMax(): real { x + width }
    function YMax(): real { y + height }
  }

  /** The texture roles a bay names (Bay.BayTextureName). */
  datatype BayPart = Wall | OpeningBack | Column | Row | Cross

  /** A bay design; GetTexture and IsFlipped become the `texture` and `flipped` lookups. */
  datatype Bay = Bay(
    openingWidth: real,
    openingHeight: real,
    spacing: real,
    openingWidthRatio: real,
    openingHeightRatio: real,
    isOpening: bool,
    texture: BayPart -> int,
    flipped: BayPart -> bool)

  datatype Facade = Facade(hasWindows: bool, isPatterned: bool, bayPattern: seq<int>, simpleBay: Bay)

  /** A run of `floors` floors drawn with the facade design `styleId` (VolumeStyleUnit). */
  datatype StyleUnit = StyleUnit(styleId: int, floors: int)

  /** A volume: its outline as indices into the plan's points, which outline edges carry a
      facade, its height in floors, and Style.GetContentsByFacade keyed by a point index. */
  datatype Volume = Volume(
    points: seq<int>,
    renderFacade: seq<bool>,
    numberOfFloors: int,
    contentsByFacade: int -> seq<StyleUnit>)

  /** The plan; GetFacadeFloorHeight(volume, pointA, pointB) and GetTrianglesBySectorBase(volume)
      are given lookups. */
  datatype Plan = Plan(
    points: seq<Vec2>,
    volumes: seq<Volume>,
    facadeFloorHeight: (int, int, int) -> int,
    trianglesBySectorBase: int -> seq<int>)

  /** A texture design together with its main texture's size and pixels. */
  datatype Texture = Texture(
    tiled: bool,
    tiledX: real,
    tiledY: real,
    unitSize: Vec2,
    maxUVTile: Vec2,
    width: int,
    height: int,
    pixels: seq<Color32>)

  datatype Roof = Roof(textureValues: seq<int>)

  datatype Data = Data(
    plan: Plan,
    floorHeight: real,
    facades: seq<Facade>,
    bays: seq<Bay>,
    textures: seq<Texture>,
    roofs: seq<Roof>,
    drawUnderside: bool)

  /** What RectanglePack.Pack leaves behind: the placed rectangles and the bin width. */
  datatype PackResult = PackResult(rects: seq<Rect>, width: int)

  /** The collaborators the builder calls but whose code is not part of this model:
      Vector2.Distance, RectanglePack.Pack, TextureScale.NearestNeighbourSample, the
      per-texture UV extent of the roof mesh that RoofBuilder produces, and the Vector3()
      extension that places a plan point in space. */
  datatype Engine = Engine(
    distance: (Vec2, Vec2) -> real,
    pack: (seq<Rect>, int) -> PackResult,
    resample: (seq<Color32>, int, int, int, int) -> seq<Color32>,
    minWorldUvSize: int -> Vec2,
    maxWorldUvSize: int -> Vec2,
    lift: Vec2 -> Vec3)

  /** The outline of every volume indexes the plan's points and has a facade flag per edge. */
  predicate VolumeFits(plan: Plan, v: Volume) {
    |v.renderFacade| >= |v.points|
    && forall i :: 0 <= i < |v.points| ==> 0 <= v.points[i] < |plan.points|
  }

  /** The shape invariants of a building that the builder takes for granted: outlines index
      the plan and roofs name existing textures. */
  predicate WellFormed(d: Data) {
    (forall v :: 0 <= v < |d.plan.volumes| ==> VolumeFits(d.plan, d.plan.volumes[v]))
    && (forall r :: 0 <= r < |d.roofs| ==> forall j :: 0 <= j < |d.roofs[r].textureValues| ==>
          0 <= d.roofs[r].textureValues[j] < |d.textures|)
  }

  /** Two rectangles share no interior point. */
  predicate Disjoint(a: Rect, b: Rect) {
    a.XMax() <= b.x || b.XMax() <= a.x || a.YMax() <= b.y || b.YMax() <= a.y
  }

  /** A rectangle lies within the square bin [0, w] x [0, w]. */
  predicate InBin(a: Rect, w: real) {
    0.0 <= a.x && 0.0 <= a.y && a.XMax() <= w && a.YMax() <= w
  }

  /** The contract assumed of RectanglePack.Pack: the same rectangles, in the same order and
      with the same sizes, moved to pairwise disjoint places inside a bin of the returned width. */
  predicate PackedBy(input: seq<Rect>, output: PackResult) {
    |output.rects| == |input|
    && (forall i :: 0 <= i < |input| ==>
          output.rects[i].width == input[i].width && output.rects[i].height == input[i].height
          && InBin(output.rects[i], output.width as real))
    && (forall i, j :: 0 <= i < j < |input| ==> Disjoint(output.rects[i], output.rects[j]))
  }

  ghost predicate PackerHonoursContract(e: Engine) {
    forall rs, padding :: PackedBy(rs, e.pack(rs, padding))
  }
}
