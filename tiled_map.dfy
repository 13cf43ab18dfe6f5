/** The parsed Tiled map as the compositor sees it, the values it derives
    from the map (textures, colours, rectangles) and the draw commands it
    emits. The map itself is produced by the tileson parser, which is not
    part of this model: a TileMap value stands for its result. */
module TiledMap {

  /** A tile id as tileson stores it: an unsigned 32-bit integer. */
  newtype u32 = x: int | 0 <= x < 0x1_0000_0000

  /** The C++ conversion of a uint32_t value to int: the unique int that
      is congruent to it modulo 2^32 (two's complement). */
  function AsInt(v: u32): (r: int)
    ensures -0x8000_0000 <= r < 0x8000_0000
    ensures (v as int - r) % 0x1_0000_0000 == 0
    ensures v < 0x8000_0000 ==> r == v as int
  {
    if v < 0x8000_0000 then v as int else v as int - 0x1_0000_0000
  }

  datatype Vec2i = Vec2i(x: int, y: int)
  datatype Vec2f = Vec2f(x: real, y: real)

  /** A tile of a tileset: its local id and the path of its own image. */
  datatype Tile = Tile(id: u32, image: string)

  datatype Tileset = Tileset(firstgid: int, tiles: seq<Tile>)

  /** A chunk of an infinite tile layer: row-major tile ids, its size in
      tiles and its position in tile coordinates (which may be negative). */
  datatype Chunk = Chunk(data: seq<u32>, size: Vec2i, position: Vec2i)

  /** An object of an object group, as placed in the map editor. */
  datatype Object = Object(name: string, kind: string, position: Vec2i, size: Vec2i)

  /** A top-level layer. Group layers and layers of unknown type are
      OtherLayer: the compositor passes over them. */
  datatype Layer =
    | TileLayer(offset: Vec2f, parallax: Vec2f, size: Vec2i, data: seq<u32>, chunks: seq<Chunk>)
    | ImageLayer(offset: Vec2f, parallax: Vec2f, image: string, repeatX: bool)
    | ObjectGroup(offset: Vec2f, parallax: Vec2f, name: string, objects: seq<Object>)
    | OtherLayer

  datatype TileMap = TileMap(tileSize: Vec2i, tilesets: seq<Tileset>, layers: seq<Layer>)

  /** A chunk whose tile data can be walked: a non-empty data array needs a
      positive row width, since the walk divides by it. */
  predicate ChunkShaped(c: Chunk)
  {
    |c.data| > 0 ==> c.size.x > 0
  }

  /** The same demand for a tile layer, on what the walk reads: every
      chunk when it has chunks, otherwise its flat data. It holds trivially
      of the other layer kinds. */
  predicate LayerShaped(l: Layer)
  {
    l.TileLayer? ==>
      if |l.chunks| > 0 then forall c :: c in l.chunks ==> ChunkShaped(c)
      else |l.data| > 0 ==> l.size.x > 0
  }

  /** A loaded texture: the path it was loaded from and its width in pixels
      (0 when the image could not be loaded). */
  datatype Texture = Texture(path: string, width: int)

  datatype Color = Color(r: int, g: int, b: int, a: int)

  const RED: Color := Color(230, 41, 55, 255)
  const WHITE: Color := Color(255, 255, 255, 255)

  datatype Rect = Rect(x: real, y: real, width: real, height: real)

  /** One call of a drawing primitive, with the coordinates passed to it
      (the 2D camera transform is applied later, by the renderer). */
  datatype DrawCommand =
    | Blit(texture: Texture, x: real, y: real)
    | FillRect(rect: Rect, color: Color)
    | RectLines(rect: Rect, thickness: int, color: Color)
    | Label(text: string, x: real, y: real, fontSize: int, color: Color)

  const ScreenWidth: int := 1440
  const ScreenHeight: int := 960

  /** The camera's screen-centre offset, half the screen in each axis. */
  const CameraOffset: Vec2f := Vec2f(ScreenWidth as real / 2.0, ScreenHeight as real / 2.0)
}
