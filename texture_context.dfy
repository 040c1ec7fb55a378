/** The mutable state the atlas is built in (LowDetailBuilder.TextureDataContext): the colour
    buffer, its width and size, the scale applied to the packed rectangles and the lists the
    planning step fills. */
module AtlasContext {
  import opened Pixels
  import opened BuildingData

  /** The values of the context that every draw reads. */
  datatype Canvas = Canvas(textureWidth: int, textureSize: int, packedScale: real)

  class TextureDataContext {
    var colourArray: array<Color32>
    var textureWidth: int
    var textureSize: int
    var packedScale: real
    var packedTexturePositions: seq<Rect>
    var roofTextureIndex: seq<int>
    var roofTextures: seq<Texture>

    /** The buffer holds textureSize pixels and rows are a non-negative number of pixels wide. */
    predicate Valid()
      reads this
    {
      colourArray.Length == textureSize && textureWidth >= 0
    }

    function CanvasOf(): (c: Canvas)
      reads this
      ensures c.textureWidth == textureWidth && c.textureSize == textureSize && c.packedScale == packedScale
    {
      Canvas(textureWidth, textureSize, packedScale)
    }

    /** The context as Build leaves it before BuildTextures: the planned and sized rectangles,
        the roof lists, and a cleared square buffer of textureWidth * textureWidth pixels. */
    constructor (positions: seq<Rect>, roofIndex: seq<int>, roofTextureList: seq<Texture>, scale: real, width: int)
      requires width >= 0
      ensures Valid() && fresh(colourArray)
      ensures packedTexturePositions == positions && roofTextureIndex == roofIndex && roofTextures == roofTextureList
      ensures packedScale == scale && textureWidth == width && textureSize == width * width
      ensures forall i :: 0 <= i < colourArray.Length ==> colourArray[i] == Clear
    {
      packedTexturePositions := positions;
      roofTextureIndex := roofIndex;
      roofTextures := roofTextureList;
      packedScale := scale;
      textureWidth := width;
      textureSize := width * width;
      colourArray := new Color32[width * width](_ => Clear);
    }
  }
}
