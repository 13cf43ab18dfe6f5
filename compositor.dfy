/** The per-frame compositor: from the loaded atlas, image-layer records,
    map layers and extracted objects, and the camera target moved by the
    input handling, the ordered draw commands of one frame. Every position
    is the one handed to the drawing primitive inside the 2D camera mode,
    that is, before the camera transform. */
module Compositor {
  import opened TiledMap
  import opened Atlas
  import opened Paths
  import opened ImageLayers
  import opened Objects

  // ---------------------------------------------------------------------
  // Parallax

  /** The parallax-adjusted offset of a tile or image layer:
      offset + target * (1 - parallax), per axis. A layer with factor (1, 1)
      sits at its plain offset wherever the camera is; a layer with factor
      (0, 0) is offset by the whole camera target, so that after the camera
      transform it stays put on screen. */
  function LayerOffset(offset: Vec2f, parallax: Vec2f, target: Vec2f): (r: Vec2f)
    ensures parallax == Vec2f(1.0, 1.0) ==> r == offset
    ensures parallax == Vec2f(0.0, 0.0) ==> r == Vec2f(offset.x + target.x, offset.y + target.y)
  {
    Vec2f(offset.x + target.x * (1.0 - parallax.x), offset.y + target.y * (1.0 - parallax.y))
  }

  /** Moving the camera target by delta moves a layer by delta scaled by
      (1 - parallax), per axis. */
  lemma ParallaxCameraShift(offset: Vec2f, parallax: Vec2f, target: Vec2f, delta: Vec2f)
    ensures LayerOffset(offset, parallax, Vec2f(target.x + delta.x, target.y + delta.y))
         == Vec2f(LayerOffset(offset, parallax, target).x + delta.x * (1.0 - parallax.x),
                  LayerOffset(offset, parallax, target).y + delta.y * (1.0 - parallax.y))
  {
    var ax, ay := 1.0 - parallax.x, 1.0 - parallax.y;
    var lo := LayerOffset(offset, parallax, target);
    var moved := LayerOffset(offset, parallax, Vec2f(target.x + delta.x, target.y + delta.y));
    assert moved.x == offset.x + (target.x + delta.x) * ax;
    assert (target.x + delta.x) * ax == target.x * ax + delta.x * ax;
    assert moved.x == lo.x + delta.x * ax;
    assert moved.y == offset.y + (target.y + delta.y) * ay;
    assert (target.y + delta.y) * ay == target.y * ay + delta.y * ay;
    assert moved.y == lo.y + delta.y * ay;
  }

  // ---------------------------------------------------------------------
  // Image layers

  /** Where an image layer is drawn: its parallax offset less the camera's
      screen-centre offset. */
  function ImageOrigin(info: ImageLayerInfo, target: Vec2f): Vec2f
  {
    var lo := LayerOffset(info.offset, info.parallax, target);
    Vec2f(lo.x - CameraOffset.x, lo.y - CameraOffset.y)
  }

  /** The `repetitions` bound of a repeating image layer: screen width over
      texture width, in integer division, plus 2. */
  function Repetitions(textureWidth: int): int
    requires textureWidth > 0
  {
    ScreenWidth / textureWidth + 2
  }

  /** n copies of a texture in a row at height origin.y, the first with
      index `first`, copy i at origin.x + i * width. */
  function Copies(texture: Texture, origin: Vec2f, width: int, first: int, n: nat): seq<DrawCommand>
  {
    if n == 0 then []
    else Copies(texture, origin, width, first, n - 1) + [Blit(texture, origin.x + ((first + n - 1) * width) as real, origin.y)]
  }

  lemma {:induction false} CopiesLayout(texture: Texture, origin: Vec2f, width: int, first: int, n: nat)
    ensures |Copies(texture, origin, width, first, n)| == n
    ensures forall k :: 0 <= k < n ==>
              Copies(texture, origin, width, first, n)[k] == Blit(texture, origin.x + ((first + k) * width) as real, origin.y)
  {
    if n > 0 {
      CopiesLayout(texture, origin, width, first, n - 1);
    }
  }

  /** A repeating image layer needs a texture of positive width, since the
      number of copies divides by it. */
  predicate ImageLayerDrawable(info: ImageLayerInfo)
  {
    info.repeatX ==> info.texture.width > 0
  }

  /** The draws of one image layer: copies -1 .. repetitions - 1 when it
      repeats, otherwise one copy at its origin. */
  function ImageLayerDraws(info: ImageLayerInfo, target: Vec2f): seq<DrawCommand>
    requires ImageLayerDrawable(info)
  {
    var o := ImageOrigin(info, target);
    if info.repeatX then Copies(info.texture, o, info.texture.width, -1, Repetitions(info.texture.width) + 1)
    else [Blit(info.texture, o.x, o.y)]
  }

  /** The drawing of one image layer in the frame loop. */
  method DrawImageLayer(info: ImageLayerInfo, target: Vec2f) returns (cmds: seq<DrawCommand>)
    requires ImageLayerDrawable(info)
    ensures cmds == ImageLayerDraws(info, target)
  {
    var parallaxX := target.x * (1.0 - info.parallax.x);
    var parallaxY := target.y * (1.0 - info.parallax.y);
    var offsetX := info.offset.x + parallaxX - CameraOffset.x;
    var offsetY := info.offset.y + parallaxY - CameraOffset.y;
    ghost var origin := ImageOrigin(info, target);
    assert Vec2f(offsetX, offsetY) == origin;
    if info.repeatX {
      var textureWidth := info.texture.width;
      var repetitions := ScreenWidth / textureWidth + 2;
      assert repetitions == Repetitions(textureWidth);
      cmds := [];
      var i := -1;
      while i < repetitions
        invariant -1 <= i <= repetitions
        invariant cmds == Copies(info.texture, origin, textureWidth, -1, i + 1)
      {
        assert -1 + (i + 2) - 1 == i;
        cmds := cmds + [Blit(info.texture, offsetX + (i * textureWidth) as real, offsetY)];
        i := i + 1;
      }
    } else {
      cmds := [Blit(info.texture, offsetX, offsetY)];
    }
  }

  /** A repeating layer is drawn screen width / texture width + 3 times,
      copy k at origin.x + (k - 1) * texture width, all at origin.y, so
      that neighbouring copies are exactly one texture width apart; a
      non-repeating layer is drawn once, at its origin. */
  lemma ImageLayerLayout(info: ImageLayerInfo, target: Vec2f)
    requires ImageLayerDrawable(info)
    ensures var d := ImageLayerDraws(info, target);
            var o := ImageOrigin(info, target);
            var w := info.texture.width;
            (!info.repeatX ==> d == [Blit(info.texture, o.x, o.y)]) &&
            (info.repeatX ==>
               |d| == ScreenWidth / w + 3 &&
               (forall k :: 0 <= k < |d| ==> d[k] == Blit(info.texture, o.x + ((k - 1) * w) as real, o.y)) &&
               (forall k :: 0 < k < |d| ==> d[k].x - d[k - 1].x == w as real && d[k].y == d[k - 1].y))
  {
    if info.repeatX {
      var o := ImageOrigin(info, target);
      var w := info.texture.width;
      var d := ImageLayerDraws(info, target);
      CopiesLayout(info.texture, o, w, -1, Repetitions(w) + 1);
      forall k | 0 < k < |d|
        ensures d[k].x - d[k - 1].x == w as real
      {
        assert (k - 1) * w - (k - 2) * w == w;
      }
    }
  }

  /** The copies of a repeating layer cover, without a gap, the span from
      one texture width left of its origin to one texture width past the
      right edge of the screen: pixel column origin.x + p lies in copy
      (p + w) / w. */
  lemma RepeatCoversViewport(info: ImageLayerInfo, target: Vec2f, p: int)
    requires info.repeatX && info.texture.width > 0
    requires -info.texture.width <= p < ScreenWidth + info.texture.width
    ensures var d := ImageLayerDraws(info, target);
            var k := (p + info.texture.width) / info.texture.width;
            0 <= k < |d| && d[k].Blit? &&
            d[k].x <= ImageOrigin(info, target).x + p as real < d[k].x + info.texture.width as real
  {
    var w := info.texture.width;
    var o := ImageOrigin(info, target);
    var d := ImageLayerDraws(info, target);
    var k := (p + w) / w;
    CopyIndex(p, w);
    ImageLayerLayout(info, target);
    var left := (k - 1) * w;
    assert d[k] == Blit(info.texture, o.x + left as real, o.y);
    assert left as real <= p as real < left as real + w as real;
  }

  /** The copy holding pixel column p of the span: copy (p + w) / w, which
      starts at most p and ends past p. */
  lemma CopyIndex(p: int, w: int)
    requires w > 0 && -w <= p < ScreenWidth + w
    ensures 0 <= (p + w) / w < ScreenWidth / w + 3
    ensures ((p + w) / w - 1) * w <= p < ((p + w) / w - 1) * w + w
  {
    var k := (p + w) / w;
    assert 0 <= p + w;
    assert k * w <= p + w < k * w + w;
    DivBound(p + w, w, ScreenWidth / w + 2);
    assert (k - 1) * w == k * w - w;
  }

  /** Helper for the division bound above: a / w stays at most
      screen width / w + 2 when a < screen width + 2 * w. */
  lemma DivBound(a: int, w: int, m: int)
    requires w > 0 && 0 <= a
    requires a < ScreenWidth + 2 * w && m == ScreenWidth / w + 2
    ensures a / w <= m
  {
    var q := a / w;
    var s := ScreenWidth / w;
    assert q * w <= a;
    assert ScreenWidth < s * w + w;
    assert q * w < (s + 3) * w;
    FactorBound(q, s + 3, w);
  }

  /** x * w < y * w with w > 0 gives x < y. */
  lemma FactorBound(x: int, y: int, w: int)
    requires w > 0 && x * w < y * w
    ensures x < y
  {
    if x >= y {
      MulMonotone(y, x, w);
    }
  }

  lemma MulMonotone(x: int, y: int, w: int)
    requires x <= y && w >= 0
    ensures x * w <= y * w
  {
    assert y * w - x * w == (y - x) * w;
  }

  function ImageLayersDraws(infos: seq<ImageLayerInfo>, target: Vec2f): seq<DrawCommand>
    requires forall info :: info in infos ==> ImageLayerDrawable(info)
  {
    if |infos| == 0 then []
    else ImageLayersDraws(infos[..|infos| - 1], target) + ImageLayerDraws(infos[|infos| - 1], target)
  }

  // ---------------------------------------------------------------------
  // Tile layers

  /** One tile of a tile layer: its world tile column and row and its id. */
  datatype Cell = Cell(col: int, row: int, gid: u32)

  /** The tiles of a finite layer: index i of the row-major data is column
      i % width, row i / width. */
  function FlatCells(data: seq<u32>, width: int): seq<Cell>
    requires |data| > 0 ==> width > 0
  {
    seq(|data|, i requires 0 <= i < |data| => Cell(i % width, i / width, data[i]))
  }

  /** The tiles of one chunk: index i of its data is column i % chunk width
      and row i / chunk width past the chunk's position; the chunk height
      is not used. */
  function ChunkCells(c: Chunk): seq<Cell>
    requires ChunkShaped(c)
  {
    seq(|c.data|, i requires 0 <= i < |c.data| =>
      Cell(c.position.x + i % c.size.x, c.position.y + i / c.size.x, c.data[i]))
  }

  function ChunksCells(chunks: seq<Chunk>): seq<Cell>
    requires forall c :: c in chunks ==> ChunkShaped(c)
  {
    if |chunks| == 0 then []
    else ChunksCells(chunks[..|chunks| - 1]) + ChunkCells(chunks[|chunks| - 1])
  }

  /** The tiles of a tile layer, in drawing order: those of its chunks when
      it has any, otherwise those of its flat data. */
  function LayerCells(l: Layer): seq<Cell>
    requires l.TileLayer? && LayerShaped(l)
  {
    if |l.chunks| > 0 then ChunksCells(l.chunks) else FlatCells(l.data, l.size.x)
  }

  /** A tile is drawn when its id is not 0 and has an atlas entry. */
  predicate Drawable(c: Cell, atlas: TextureAtlas)
  {
    c.gid != 0 && LookupKey(c.gid) in atlas
  }

  /** The draw of a drawable tile: its atlas texture at its tile position
      scaled by the tile size, plus the layer offset, less the camera's
      screen-centre offset. */
  function TileDraw(c: Cell, atlas: TextureAtlas, tileSize: Vec2i, layerOffset: Vec2f): DrawCommand
    requires Drawable(c, atlas)
  {
    Blit(atlas[LookupKey(c.gid)],
         (c.col * tileSize.x) as real + layerOffset.x - CameraOffset.x,
         (c.row * tileSize.y) as real + layerOffset.y - CameraOffset.y)
  }

  /** The draws of a sequence of tiles, in order, the undrawable ones skipped. */
  function CellDraws(cells: seq<Cell>, atlas: TextureAtlas, tileSize: Vec2i, layerOffset: Vec2f): seq<DrawCommand>
  {
    if |cells| == 0 then []
    else
      var c := cells[|cells| - 1];
      CellDraws(cells[..|cells| - 1], atlas, tileSize, layerOffset) +
      (if Drawable(c, atlas) then [TileDraw(c, atlas, tileSize, layerOffset)] else [])
  }

  /** The positions of the drawable tiles, in increasing order. */
  function DrawableIndices(cells: seq<Cell>, atlas: TextureAtlas): seq<int>
  {
    if |cells| == 0 then []
    else
      DrawableIndices(cells[..|cells| - 1], atlas) +
      (if Drawable(cells[|cells| - 1], atlas) then [|cells| - 1] else [])
  }

  function TileLayerDraws(l: Layer, atlas: TextureAtlas, tileSize: Vec2i, target: Vec2f): seq<DrawCommand>
    requires l.TileLayer? && LayerShaped(l)
  {
    CellDraws(LayerCells(l), atlas, tileSize, LayerOffset(l.offset, l.parallax, target))
  }

  /** The walk over one chunk's data in the frame loop. */
  method DrawChunk(chunk: Chunk, atlas: TextureAtlas, tileSize: Vec2i, layerOffset: Vec2f) returns (cmds: seq<DrawCommand>)
    requires ChunkShaped(chunk)
    ensures cmds == CellDraws(ChunkCells(chunk), atlas, tileSize, layerOffset)
  {
    var chunkData := chunk.data;
    var chunkWidth := chunk.size.x;
    var chunkX := chunk.position.x;
    var chunkY := chunk.position.y;
    ghost var cells := ChunkCells(chunk);
    cmds := [];
    for i := 0 to |chunkData|
      invariant cmds == CellDraws(cells[..i], atlas, tileSize, layerOffset)
    {
      assert cells[..i + 1][..i] == cells[..i];
      var tileId := chunkData[i];
      if tileId == 0 {
        continue;
      }
      var xInChunk := i % chunkWidth;
      var yInChunk := i / chunkWidth;
      assert cells[i] == Cell(chunkX + xInChunk, chunkY + yInChunk, tileId);
      var x := ((chunkX + xInChunk) * tileSize.x) as real + layerOffset.x - CameraOffset.x;
      var y := ((chunkY + yInChunk) * tileSize.y) as real + layerOffset.y - CameraOffset.y;
      if LookupKey(tileId) in atlas {
        cmds := cmds + [Blit(atlas[LookupKey(tileId)], x, y)];
      }
    }
    assert cells[..|chunkData|] == cells;
  }

  /** The walk over a finite layer's data in the frame loop. */
  method DrawFlatTiles(tileData: seq<u32>, layerWidth: int, atlas: TextureAtlas, tileSize: Vec2i, layerOffset: Vec2f)
    returns (cmds: seq<DrawCommand>)
    requires |tileData| > 0 ==> layerWidth > 0
    ensures cmds == CellDraws(FlatCells(tileData, layerWidth), atlas, tileSize, layerOffset)
  {
    ghost var cells := FlatCells(tileData, layerWidth);
    cmds := [];
    for i := 0 to |tileData|
      invariant cmds == CellDraws(cells[..i], atlas, tileSize, layerOffset)
    {
      assert cells[..i + 1][..i] == cells[..i];
      var tileId := tileData[i];
      if tileId == 0 {
        continue;
      }
      assert cells[i] == Cell(i % layerWidth, i / layerWidth, tileId);
      var x := ((i % layerWidth) * tileSize.x) as real + layerOffset.x - CameraOffset.x;
      var y := ((i / layerWidth) * tileSize.y) as real + layerOffset.y - CameraOffset.y;
      if LookupKey(tileId) in atlas {
        cmds := cmds + [Blit(atlas[LookupKey(tileId)], x, y)];
      }
    }
    assert cells[..|tileData|] == cells;
  }

  /** The drawing of one tile layer in the frame loop: its chunks, one
      after the other, when it has any, otherwise its flat data. */
  method DrawTileLayer(l: Layer, atlas: TextureAtlas, tileSize: Vec2i, target: Vec2f) returns (cmds: seq<DrawCommand>)
    requires l.TileLayer? && LayerShaped(l)
    ensures cmds == TileLayerDraws(l, atlas, tileSize, target)
  {
    var layerOffset := LayerOffset(l.offset, l.parallax, target);
    var chunks := l.chunks;
    if |chunks| > 0 {
      cmds := [];
      for c := 0 to |chunks|
        invariant cmds == CellDraws(ChunksCells(chunks[..c]), atlas, tileSize, layerOffset)
      {
        assert chunks[c] in chunks;
        var chunkCmds := DrawChunk(chunks[c], atlas, tileSize, layerOffset);
        assert chunks[..c + 1][..c] == chunks[..c];
        CellDrawsAppend(ChunksCells(chunks[..c]), ChunkCells(chunks[c]), atlas, tileSize, layerOffset);
        cmds := cmds + chunkCmds;
      }
      assert chunks[..|chunks|] == chunks;
    } else {
      cmds := DrawFlatTiles(l.data, l.size.x, atlas, tileSize, layerOffset);
    }
  }

  /** Draws of consecutive runs of tiles concatenate. */
  lemma {:induction false} CellDrawsAppend(a: seq<Cell>, b: seq<Cell>, atlas: TextureAtlas, tileSize: Vec2i, layerOffset: Vec2f)
    ensures CellDraws(a + b, atlas, tileSize, layerOffset) == CellDraws(a, atlas, tileSize, layerOffset) + CellDraws(b, atlas, tileSize, layerOffset)
  {
    if |b| == 0 {
      assert a + b == a;
    } else {
      var n := |b| - 1;
      CellDrawsAppend(a, b[..n], atlas, tileSize, layerOffset);
      assert (a + b)[..|a + b| - 1] == a + b[..n];
      assert (a + b)[|a + b| - 1] == b[n];
    }
  }

  /** A tile with id 0, or with an id missing from the atlas, contributes
      no draw wherever it stands. */
  lemma UndrawableTileSkipped(a: seq<Cell>, c: Cell, b: seq<Cell>, atlas: TextureAtlas, tileSize: Vec2i, layerOffset: Vec2f)
    requires c.gid == 0 || LookupKey(c.gid) !in atlas
    ensures CellDraws(a + [c] + b, atlas, tileSize, layerOffset) == CellDraws(a + b, atlas, tileSize, layerOffset)
  {
    CellDrawsAppend(a + [c], b, atlas, tileSize, layerOffset);
    CellDrawsAppend(a, [c], atlas, tileSize, layerOffset);
    CellDrawsAppend(a, b, atlas, tileSize, layerOffset);
    assert [c][..0] == [];
  }

  /** The drawable positions: strictly increasing, and exactly the
      positions whose tile is drawable. */
  lemma {:induction false} DrawableIndicesSpec(cells: seq<Cell>, atlas: TextureAtlas)
    ensures forall k :: 0 <= k < |DrawableIndices(cells, atlas)| ==>
              0 <= DrawableIndices(cells, atlas)[k] < |cells| && Drawable(cells[DrawableIndices(cells, atlas)[k]], atlas)
    ensures forall k, k' :: 0 <= k < k' < |DrawableIndices(cells, atlas)| ==>
              DrawableIndices(cells, atlas)[k] < DrawableIndices(cells, atlas)[k']
    ensures forall i :: 0 <= i < |cells| && Drawable(cells[i], atlas) ==> i in DrawableIndices(cells, atlas)
  {
    if |cells| > 0 {
      var n := |cells| - 1;
      var front := cells[..n];
      DrawableIndicesSpec(front, atlas);
      var di := DrawableIndices(front, atlas);
      assert forall k :: 0 <= k < |di| ==> front[di[k]] == cells[di[k]];
      forall i | 0 <= i < |cells| && Drawable(cells[i], atlas)
        ensures i in DrawableIndices(cells, atlas)
      {
        if i < n {
          assert front[i] == cells[i];
        }
      }
    }
  }

  /** The k-th draw of a run of tiles is the draw of its k-th drawable tile. */
  lemma {:induction false} CellDrawsSelect(cells: seq<Cell>, atlas: TextureAtlas, tileSize: Vec2i, layerOffset: Vec2f)
    ensures |CellDraws(cells, atlas, tileSize, layerOffset)| == |DrawableIndices(cells, atlas)|
    ensures forall k :: 0 <= k < |DrawableIndices(cells, atlas)| ==>
              0 <= DrawableIndices(cells, atlas)[k] < |cells| &&
              Drawable(cells[DrawableIndices(cells, atlas)[k]], atlas) &&
              CellDraws(cells, atlas, tileSize, layerOffset)[k] == TileDraw(cells[DrawableIndices(cells, atlas)[k]], atlas, tileSize, layerOffset)
  {
    DrawableIndicesSpec(cells, atlas);
    if |cells| > 0 {
      var n := |cells| - 1;
      var front := cells[..n];
      CellDrawsSelect(front, atlas, tileSize, layerOffset);
      var di := DrawableIndices(front, atlas);
      assert forall k :: 0 <= k < |di| ==> front[di[k]] == cells[di[k]];
    }
  }

  /** In a finite layer the k-th draw comes from the k-th data index i with
      a non-zero id present in the atlas, in increasing i, and is placed at
      ((i % width) * tile width, (i / width) * tile height) plus the layer
      offset, less the camera's screen-centre offset; every such index is
      drawn. */
  lemma FlatLayerDraws(l: Layer, atlas: TextureAtlas, tileSize: Vec2i, target: Vec2f)
    requires l.TileLayer? && LayerShaped(l) && |l.chunks| == 0
    ensures var d := TileLayerDraws(l, atlas, tileSize, target);
            var di := DrawableIndices(LayerCells(l), atlas);
            var lo := LayerOffset(l.offset, l.parallax, target);
            |d| == |di| &&
            (forall k, k' :: 0 <= k < k' < |di| ==> di[k] < di[k']) &&
            (forall i :: 0 <= i < |l.data| && l.data[i] != 0 && LookupKey(l.data[i]) in atlas ==> i in di) &&
            (forall k :: 0 <= k < |di| ==>
               0 <= di[k] < |l.data| && l.data[di[k]] != 0 && LookupKey(l.data[di[k]]) in atlas &&
               d[k] == Blit(atlas[LookupKey(l.data[di[k]])],
                            ((di[k] % l.size.x) * tileSize.x) as real + lo.x - CameraOffset.x,
                            ((di[k] / l.size.x) * tileSize.y) as real + lo.y - CameraOffset.y))
  {
    var cells := LayerCells(l);
    CellDrawsSelect(cells, atlas, tileSize, LayerOffset(l.offset, l.parallax, target));
    DrawableIndicesSpec(cells, atlas);
    forall i | 0 <= i < |l.data| && l.data[i] != 0 && LookupKey(l.data[i]) in atlas
      ensures i in DrawableIndices(cells, atlas)
    {
      assert Drawable(cells[i], atlas);
    }
  }

  /** The tile at index i of a chunk. */
  function ChunkCell(c: Chunk, i: int): Cell
    requires ChunkShaped(c) && 0 <= i < |c.data|
  {
    ChunkCells(c)[i]
  }

  /** The tiles of a chunked layer are exactly the tiles of its chunks,
      tile i of a chunk at world tile (chunk x + i % chunk width,
      chunk y + i / chunk width). */
  lemma {:induction false} ChunksCellsMembers(chunks: seq<Chunk>)
    requires forall c :: c in chunks ==> ChunkShaped(c)
    ensures forall cell :: cell in ChunksCells(chunks) <==>
              exists j, i :: 0 <= j < |chunks| && 0 <= i < |chunks[j].data| && cell == ChunkCell(chunks[j], i)
    ensures forall j, i :: 0 <= j < |chunks| && 0 <= i < |chunks[j].data| ==>
              ChunkCell(chunks[j], i) == Cell(chunks[j].position.x + i % chunks[j].size.x,
                                              chunks[j].position.y + i / chunks[j].size.x, chunks[j].data[i])
  {
    if |chunks| > 0 {
      var n := |chunks| - 1;
      var front := chunks[..n];
      ChunksCellsMembers(front);
      forall cell
        ensures cell in ChunksCells(chunks) <==>
                exists j, i :: 0 <= j < |chunks| && 0 <= i < |chunks[j].data| && cell == ChunkCell(chunks[j], i)
      {
        if cell in ChunksCells(front) {
          var j, i :| 0 <= j < |front| && 0 <= i < |front[j].data| && cell == ChunkCell(front[j], i);
          assert chunks[j] == front[j];
        } else if cell in ChunkCells(chunks[n]) {
          var i :| 0 <= i < |chunks[n].data| && cell == ChunkCells(chunks[n])[i];
          assert cell == ChunkCell(chunks[n], i);
        }
        if exists j, i :: 0 <= j < |chunks| && 0 <= i < |chunks[j].data| && cell == ChunkCell(chunks[j], i) {
          var j, i :| 0 <= j < |chunks| && 0 <= i < |chunks[j].data| && cell == ChunkCell(chunks[j], i);
          if j < n {
            assert front[j] == chunks[j];
          } else {
            assert cell == ChunkCells(chunks[n])[i];
          }
        }
      }
    }
  }

  /** cmd is the draw of tile i of chunk c: its id is non-zero and in the
      atlas, and it is drawn at ((chunk x + i % chunk width) * tile width,
      (chunk y + i / chunk width) * tile height) plus the layer offset, less
      the camera's screen-centre offset. */
  predicate ChunkTileDrawn(c: Chunk, i: int, atlas: TextureAtlas, tileSize: Vec2i, layerOffset: Vec2f, cmd: DrawCommand)
  {
    0 <= i < |c.data| && c.size.x > 0 && c.data[i] != 0 && LookupKey(c.data[i]) in atlas &&
    cmd == Blit(atlas[LookupKey(c.data[i])],
                ((c.position.x + i % c.size.x) * tileSize.x) as real + layerOffset.x - CameraOffset.x,
                ((c.position.y + i / c.size.x) * tileSize.y) as real + layerOffset.y - CameraOffset.y)
  }

  /** In a chunked layer the k-th draw comes from the k-th drawable tile of
      the walk (chunk after chunk, index order within a chunk), which is
      tile i of some chunk j, drawn as ChunkTileDrawn says. */
  lemma ChunkedLayerDraws(l: Layer, atlas: TextureAtlas, tileSize: Vec2i, target: Vec2f)
    requires l.TileLayer? && LayerShaped(l) && |l.chunks| > 0
    ensures var d := TileLayerDraws(l, atlas, tileSize, target);
            var cells := LayerCells(l);
            var di := DrawableIndices(cells, atlas);
            var lo := LayerOffset(l.offset, l.parallax, target);
            |d| == |di| &&
            (forall k, k' :: 0 <= k < k' < |di| ==> di[k] < di[k']) &&
            (forall k :: 0 <= k < |di| ==>
               0 <= di[k] < |cells| &&
               exists j, i :: 0 <= j < |l.chunks| && ChunkTileDrawn(l.chunks[j], i, atlas, tileSize, lo, d[k]) &&
                              cells[di[k]] == ChunkCell(l.chunks[j], i))
  {
    var cells := LayerCells(l);
    var lo := LayerOffset(l.offset, l.parallax, target);
    var d := TileLayerDraws(l, atlas, tileSize, target);
    var di := DrawableIndices(cells, atlas);
    CellDrawsSelect(cells, atlas, tileSize, lo);
    DrawableIndicesSpec(cells, atlas);
    ChunksCellsMembers(l.chunks);
    forall k | 0 <= k < |di|
      ensures exists j, i :: 0 <= j < |l.chunks| && ChunkTileDrawn(l.chunks[j], i, atlas, tileSize, lo, d[k]) &&
                             cells[di[k]] == ChunkCell(l.chunks[j], i)
    {
      assert cells[di[k]] in cells;
      var j, i :| 0 <= j < |l.chunks| && 0 <= i < |l.chunks[j].data| && cells[di[k]] == ChunkCell(l.chunks[j], i);
      assert l.chunks[j] in l.chunks;
      assert ChunkTileDrawn(l.chunks[j], i, atlas, tileSize, lo, d[k]);
    }
  }

  /** Every drawable tile of a walk is drawn, by the draw whose index is
      its rank among the drawable tiles. */
  lemma DrawnAt(cells: seq<Cell>, atlas: TextureAtlas, tileSize: Vec2i, layerOffset: Vec2f, p: int)
    requires 0 <= p < |cells| && Drawable(cells[p], atlas)
    ensures |CellDraws(cells, atlas, tileSize, layerOffset)| == |DrawableIndices(cells, atlas)|
    ensures exists k :: 0 <= k < |DrawableIndices(cells, atlas)| && DrawableIndices(cells, atlas)[k] == p &&
                        CellDraws(cells, atlas, tileSize, layerOffset)[k] == TileDraw(cells[p], atlas, tileSize, layerOffset)
  {
    CellDrawsSelect(cells, atlas, tileSize, layerOffset);
    DrawableIndicesSpec(cells, atlas);
    var di := DrawableIndices(cells, atlas);
    assert p in di;
    var k :| 0 <= k < |di| && di[k] == p;
  }

  /** Every tile of every chunk with a non-zero id present in the atlas is
      drawn, as ChunkTileDrawn says, by the draw of its place in the walk. */
  lemma ChunkedLayerDrawsEvery(l: Layer, atlas: TextureAtlas, tileSize: Vec2i, target: Vec2f)
    requires l.TileLayer? && LayerShaped(l) && |l.chunks| > 0
    ensures var d := TileLayerDraws(l, atlas, tileSize, target);
            var cells := LayerCells(l);
            var di := DrawableIndices(cells, atlas);
            var lo := LayerOffset(l.offset, l.parallax, target);
            |d| == |di| &&
            forall j, i :: (0 <= j < |l.chunks| && 0 <= i < |l.chunks[j].data| &&
                            l.chunks[j].data[i] != 0 && LookupKey(l.chunks[j].data[i]) in atlas) ==>
              exists k :: 0 <= k < |di| && 0 <= di[k] < |cells| &&
                          ChunkTileDrawn(l.chunks[j], i, atlas, tileSize, lo, d[k]) &&
                          cells[di[k]] == ChunkCell(l.chunks[j], i)
  {
    var cells := LayerCells(l);
    var lo := LayerOffset(l.offset, l.parallax, target);
    var d := TileLayerDraws(l, atlas, tileSize, target);
    var di := DrawableIndices(cells, atlas);
    ChunksCellsMembers(l.chunks);
    CellDrawsSelect(cells, atlas, tileSize, lo);
    forall j, i | 0 <= j < |l.chunks| && 0 <= i < |l.chunks[j].data| &&
                  l.chunks[j].data[i] != 0 && LookupKey(l.chunks[j].data[i]) in atlas
      ensures exists k :: 0 <= k < |di| && 0 <= di[k] < |cells| &&
                          ChunkTileDrawn(l.chunks[j], i, atlas, tileSize, lo, d[k]) &&
                          cells[di[k]] == ChunkCell(l.chunks[j], i)
    {
      var c := l.chunks[j];
      assert c in l.chunks;
      var cell := ChunkCell(c, i);
      assert cell in cells;
      var p :| 0 <= p < |cells| && cells[p] == cell;
      DrawnAt(cells, atlas, tileSize, lo, p);
      var k :| 0 <= k < |di| && di[k] == p && d[k] == TileDraw(cell, atlas, tileSize, lo);
      assert ChunkTileDrawn(c, i, atlas, tileSize, lo, d[k]);
    }
  }

  /** The chunk heights play no part: chunks that agree on data, position
      and width give the same tiles. */
  lemma {:induction false} ChunkHeightUnused(chunks: seq<Chunk>, chunks': seq<Chunk>)
    requires forall c :: c in chunks ==> ChunkShaped(c)
    requires |chunks'| == |chunks|
    requires forall j :: 0 <= j < |chunks| ==>
               chunks'[j].data == chunks[j].data && chunks'[j].position == chunks[j].position &&
               chunks'[j].size.x == chunks[j].size.x
    ensures forall c :: c in chunks' ==> ChunkShaped(c)
    ensures ChunksCells(chunks') == ChunksCells(chunks)
  {
    forall c | c in chunks'
      ensures ChunkShaped(c)
    {
      var j :| 0 <= j < |chunks'| && chunks'[j] == c;
      assert chunks[j] in chunks;
    }
    if |chunks| > 0 {
      var n := |chunks| - 1;
      assert chunks[n] in chunks;
      ChunkHeightUnused(chunks[..n], chunks'[..n]);
      assert ChunkCells(chunks'[n]) == ChunkCells(chunks[n]);
    }
  }

  /** A layer with chunks is drawn from them alone: its flat data and size
      are not read. */
  lemma ChunkedLayerIgnoresFlatData(l: Layer, size: Vec2i, data: seq<u32>, atlas: TextureAtlas, tileSize: Vec2i, target: Vec2f)
    requires l.TileLayer? && LayerShaped(l) && |l.chunks| > 0
    ensures LayerShaped(TileLayer(l.offset, l.parallax, size, data, l.chunks))
    ensures TileLayerDraws(TileLayer(l.offset, l.parallax, size, data, l.chunks), atlas, tileSize, target)
         == TileLayerDraws(l, atlas, tileSize, target)
  {
  }

  /** The same tiles stored as a finite layer or as one chunk at the origin
      of the same width are drawn identically, in the same order (the
      order-free statement for any layout is SameTilesSameDraws). */
  lemma ChunkAtOriginMatchesFlat(offset: Vec2f, parallax: Vec2f, data: seq<u32>, width: int, height: int, height': int,
                                 atlas: TextureAtlas, tileSize: Vec2i, target: Vec2f)
    requires width > 0
    ensures TileLayerDraws(TileLayer(offset, parallax, Vec2i(width, height), data, []), atlas, tileSize, target)
         == TileLayerDraws(TileLayer(offset, parallax, Vec2i(0, 0), [], [Chunk(data, Vec2i(width, height'), Vec2i(0, 0))]),
                           atlas, tileSize, target)
  {
    var c := Chunk(data, Vec2i(width, height'), Vec2i(0, 0));
    assert [c][..0] == [];
    assert ChunksCells([c]) == ChunkCells(c);
    assert ChunkCells(c) == FlatCells(data, width);
  }

  /** The drawable tiles of a walk, in walk order. */
  function DrawableCells(cells: seq<Cell>, atlas: TextureAtlas): (r: seq<Cell>)
    ensures forall c :: c in r ==> Drawable(c, atlas) && c in cells
  {
    if |cells| == 0 then []
    else
      var c := cells[|cells| - 1];
      DrawableCells(cells[..|cells| - 1], atlas) + (if Drawable(c, atlas) then [c] else [])
  }

  /** The draws of drawable tiles, one per tile, in order. */
  function Draws(cs: seq<Cell>, atlas: TextureAtlas, tileSize: Vec2i, layerOffset: Vec2f): seq<DrawCommand>
    requires forall c :: c in cs ==> Drawable(c, atlas)
  {
    if |cs| == 0 then []
    else Draws(cs[..|cs| - 1], atlas, tileSize, layerOffset) + [TileDraw(cs[|cs| - 1], atlas, tileSize, layerOffset)]
  }

  /** Walking tiles draws exactly the drawable ones, in walk order. */
  lemma {:induction false} CellDrawsAreDrawableDraws(cells: seq<Cell>, atlas: TextureAtlas, tileSize: Vec2i, layerOffset: Vec2f)
    ensures CellDraws(cells, atlas, tileSize, layerOffset) == Draws(DrawableCells(cells, atlas), atlas, tileSize, layerOffset)
  {
    if |cells| > 0 {
      var n := |cells| - 1;
      CellDrawsAreDrawableDraws(cells[..n], atlas, tileSize, layerOffset);
      var front := DrawableCells(cells[..n], atlas);
      if Drawable(cells[n], atlas) {
        assert (front + [cells[n]])[..|front|] == front;
      } else {
        assert front + [] == front;
      }
    }
  }

  lemma {:induction false} DrawsAppend(a: seq<Cell>, b: seq<Cell>, atlas: TextureAtlas, tileSize: Vec2i, layerOffset: Vec2f)
    requires forall c :: c in a + b ==> Drawable(c, atlas)
    ensures forall c :: c in a ==> Drawable(c, atlas)
    ensures forall c :: c in b ==> Drawable(c, atlas)
    ensures Draws(a + b, atlas, tileSize, layerOffset) == Draws(a, atlas, tileSize, layerOffset) + Draws(b, atlas, tileSize, layerOffset)
  {
    assert forall c :: c in a ==> c in a + b;
    assert forall c :: c in b ==> c in a + b;
    if |b| == 0 {
      assert a + b == a;
    } else {
      var n := |b| - 1;
      assert (a + b)[..|a + b| - 1] == a + b[..n];
      assert forall c :: c in a + b[..n] ==> c in a + b;
      DrawsAppend(a, b[..n], atlas, tileSize, layerOffset);
      assert (a + b)[|a + b| - 1] == b[n];
    }
  }

  lemma MultisetRemoveAt(b: seq<Cell>, i: int)
    requires 0 <= i < |b|
    ensures multiset(b[..i] + b[i + 1..]) == multiset(b) - multiset{b[i]}
  {
    assert b == b[..i] + [b[i]] + b[i + 1..];
  }

  /** Taking tile i out of a run of drawable tiles takes its draw out of
      their draws. */
  lemma DrawsRemoveAt(b: seq<Cell>, i: int, atlas: TextureAtlas, tileSize: Vec2i, layerOffset: Vec2f)
    requires forall c :: c in b ==> Drawable(c, atlas)
    requires 0 <= i < |b|
    ensures forall c :: c in b[..i] + b[i + 1..] ==> Drawable(c, atlas)
    ensures multiset(Draws(b, atlas, tileSize, layerOffset))
         == multiset(Draws(b[..i] + b[i + 1..], atlas, tileSize, layerOffset)) + multiset{TileDraw(b[i], atlas, tileSize, layerOffset)}
  {
    var x, front, back := b[i], b[..i], b[i + 1..];
    assert b == (front + [x]) + back;
    assert forall c :: c in front + back ==> c in b;
    DrawsAppend(front + [x], back, atlas, tileSize, layerOffset);
    assert (front + [x])[..|front|] == front;
    var t := TileDraw(x, atlas, tileSize, layerOffset);
    assert Draws(front + [x], atlas, tileSize, layerOffset) == Draws(front, atlas, tileSize, layerOffset) + [t];
    DrawsAppend(front, back, atlas, tileSize, layerOffset);
    var df, db := Draws(front, atlas, tileSize, layerOffset), Draws(back, atlas, tileSize, layerOffset);
    assert Draws(b, atlas, tileSize, layerOffset) == df + [t] + db;
    assert multiset(df + [t] + db) == multiset(df + db) + multiset{t};
  }

  /** The same drawable tiles, in whatever order, give the same draws, in
      some order. */
  lemma {:induction false} DrawsPermutation(a: seq<Cell>, b: seq<Cell>, atlas: TextureAtlas, tileSize: Vec2i, layerOffset: Vec2f)
    requires forall c :: c in a ==> Drawable(c, atlas)
    requires multiset(a) == multiset(b)
    ensures forall c :: c in b ==> Drawable(c, atlas)
    ensures multiset(Draws(a, atlas, tileSize, layerOffset)) == multiset(Draws(b, atlas, tileSize, layerOffset))
  {
    assert forall c :: c in b ==> c in multiset(b);
    if |a| > 0 {
      var n := |a| - 1;
      var x := a[n];
      assert x in multiset(b);
      var i :| 0 <= i < |b| && b[i] == x;
      MultisetRemoveAt(a, n);
      MultisetRemoveAt(b, i);
      assert a[..n] + a[n + 1..] == a[..n];
      DrawsRemoveAt(a, n, atlas, tileSize, layerOffset);
      DrawsRemoveAt(b, i, atlas, tileSize, layerOffset);
      DrawsPermutation(a[..n], b[..i] + b[i + 1..], atlas, tileSize, layerOffset);
    } else {
      assert |multiset(b)| == 0;
    }
  }

  /** Two tile layers at the same offset and parallax factor whose drawable
      tiles are the same ids at the same world tiles, however they are laid
      out (finite data, chunks at any positions and widths, in any order),
      draw the same commands, up to order. */
  lemma SameTilesSameDraws(l: Layer, l': Layer, atlas: TextureAtlas, tileSize: Vec2i, target: Vec2f)
    requires l.TileLayer? && LayerShaped(l) && l'.TileLayer? && LayerShaped(l')
    requires l.offset == l'.offset && l.parallax == l'.parallax
    requires multiset(DrawableCells(LayerCells(l), atlas)) == multiset(DrawableCells(LayerCells(l'), atlas))
    ensures multiset(TileLayerDraws(l, atlas, tileSize, target)) == multiset(TileLayerDraws(l', atlas, tileSize, target))
  {
    var lo := LayerOffset(l.offset, l.parallax, target);
    CellDrawsAreDrawableDraws(LayerCells(l), atlas, tileSize, lo);
    CellDrawsAreDrawableDraws(LayerCells(l'), atlas, tileSize, lo);
    DrawsPermutation(DrawableCells(LayerCells(l), atlas), DrawableCells(LayerCells(l'), atlas), atlas, tileSize, lo);
  }

  /** The atlas of a single tileset holding tiles 1 and 2: they are
      registered under 1 + firstgid - 1 and 2 + firstgid - 1, with the
      textures loaded from their images under "tiled_project/". */
  lemma TwoTileAtlas(firstgid: int, image1: string, image2: string, imageWidth: string -> int)
    requires 1 <= firstgid < 0x7fff_ffff
    ensures var p1 := "tiled_project/" + image1;
            var p2 := "tiled_project/" + image2;
            AtlasOf([Tileset(firstgid, [Tile(1, image1), Tile(2, image2)])], imageWidth)
            == map[firstgid := Texture(p1, imageWidth(p1)), firstgid + 1 := Texture(p2, imageWidth(p2))]
  {
    var tiles := [Tile(1, image1), Tile(2, image2)];
    assert [Tileset(firstgid, tiles)][..0] == [];
    assert AtlasOf([Tileset(firstgid, tiles)], imageWidth) == InsertTiles(map[], firstgid, tiles, imageWidth);
    assert tiles[..1] == [Tile(1, image1)];
    assert tiles[..1][..0] == [];
    var first := InsertTiles(map[], firstgid, tiles[..1], imageWidth);
    assert InsertTiles(map[], firstgid, tiles[..1][..0], imageWidth) == map[];
    assert first == InsertTiles(map[], firstgid, tiles[..1][..0], imageWidth)[AtlasKey(1, firstgid) := TileTexture(tiles[0], imageWidth)];
    assert InsertTiles(map[], firstgid, tiles, imageWidth) == first[AtlasKey(2, firstgid) := TileTexture(tiles[1], imageWidth)];
    assert AtlasKey(1, firstgid) == firstgid;
    assert AtlasKey(2, firstgid) == firstgid + 1;
  }

  /** The draws of the 2x2 finite layer [1, 0, 2, 0] of 16-pixel tiles over
      an atlas holding ids 1 and 2. */
  lemma FlatLayerExampleDraws(t1: Texture, t2: Texture, target: Vec2f)
    ensures TileLayerDraws(TileLayer(Vec2f(0.0, 0.0), Vec2f(1.0, 1.0), Vec2i(2, 2), [1, 0, 2, 0], []),
                           map[1 := t1, 2 := t2], Vec2i(16, 16), target)
         == [Blit(t1, 0.0 - CameraOffset.x, 0.0 - CameraOffset.y), Blit(t2, 0.0 - CameraOffset.x, 16.0 - CameraOffset.y)]
  {
    var atlas := map[1 := t1, 2 := t2];
    var size := Vec2i(16, 16);
    var lo := LayerOffset(Vec2f(0.0, 0.0), Vec2f(1.0, 1.0), target);
    assert lo == Vec2f(0.0, 0.0);
    var cells := FlatCells([1, 0, 2, 0], 2);
    assert cells == [Cell(0, 0, 1), Cell(1, 0, 0), Cell(0, 1, 2), Cell(1, 1, 0)];
    var first := Blit(t1, 0.0 - CameraOffset.x, 0.0 - CameraOffset.y);
    var second := Blit(t2, 0.0 - CameraOffset.x, 16.0 - CameraOffset.y);
    assert CellDraws([], atlas, size, lo) == [];
    assert CellDraws([Cell(0, 0, 1)], atlas, size, lo) == [first] by {
      assert [Cell(0, 0, 1)][..0] == [];
    }
    assert CellDraws([Cell(0, 0, 1), Cell(1, 0, 0)], atlas, size, lo) == [first] by {
      assert [Cell(0, 0, 1), Cell(1, 0, 0)][..1] == [Cell(0, 0, 1)];
    }
    assert CellDraws([Cell(0, 0, 1), Cell(1, 0, 0), Cell(0, 1, 2)], atlas, size, lo) == [first, second] by {
      assert [Cell(0, 0, 1), Cell(1, 0, 0), Cell(0, 1, 2)][..2] == [Cell(0, 0, 1), Cell(1, 0, 0)];
    }
    assert cells[..3] == [Cell(0, 0, 1), Cell(1, 0, 0), Cell(0, 1, 2)];
  }

  /** A 2x2 finite layer [1, 0, 2, 0] of 16-pixel tiles over a tileset with
      firstgid 1 holding tiles 1 and 2: two draws, id 1 at tile (0, 0) and
      id 2, index 2, at column 0 of row 1, that is pixel (0, 16). */
  lemma FlatLayerExample(imageWidth: string -> int, target: Vec2f)
    ensures var t1 := Texture("tiled_project/grass.png", imageWidth("tiled_project/grass.png"));
            var t2 := Texture("tiled_project/stone.png", imageWidth("tiled_project/stone.png"));
            TileLayerDraws(TileLayer(Vec2f(0.0, 0.0), Vec2f(1.0, 1.0), Vec2i(2, 2), [1, 0, 2, 0], []),
                           AtlasOf([Tileset(1, [Tile(1, "grass.png"), Tile(2, "stone.png")])], imageWidth),
                           Vec2i(16, 16), target)
            == [Blit(t1, 0.0 - CameraOffset.x, 0.0 - CameraOffset.y), Blit(t2, 0.0 - CameraOffset.x, 16.0 - CameraOffset.y)]
  {
    var t1 := Texture("tiled_project/grass.png", imageWidth("tiled_project/grass.png"));
    var t2 := Texture("tiled_project/stone.png", imageWidth("tiled_project/stone.png"));
    assert "tiled_project/" + "grass.png" == "tiled_project/grass.png";
    assert "tiled_project/" + "stone.png" == "tiled_project/stone.png";
    TwoTileAtlas(1, "grass.png", "stone.png", imageWidth);
    FlatLayerExampleDraws(t1, t2, target);
  }

  /** The draws of one 2x2 chunk at tile (-1, -1) holding [5, 0, 0, 6],
      32-pixel tiles, over an atlas holding ids 5 and 6. */
  lemma ChunkExampleDraws(t5: Texture, t6: Texture, target: Vec2f)
    ensures TileLayerDraws(TileLayer(Vec2f(0.0, 0.0), Vec2f(1.0, 1.0), Vec2i(0, 0), [],
                                     [Chunk([5, 0, 0, 6], Vec2i(2, 2), Vec2i(-1, -1))]),
                           map[5 := t5, 6 := t6], Vec2i(32, 32), target)
         == [Blit(t5, -32.0 - CameraOffset.x, -32.0 - CameraOffset.y), Blit(t6, 0.0 - CameraOffset.x, 0.0 - CameraOffset.y)]
  {
    var atlas := map[5 := t5, 6 := t6];
    var size := Vec2i(32, 32);
    var lo := LayerOffset(Vec2f(0.0, 0.0), Vec2f(1.0, 1.0), target);
    assert lo == Vec2f(0.0, 0.0);
    var c := Chunk([5, 0, 0, 6], Vec2i(2, 2), Vec2i(-1, -1));
    assert ChunksCells([c]) == ChunkCells(c) by {
      assert [c][..0] == [];
    }
    var cells := ChunkCells(c);
    assert cells == [Cell(-1, -1, 5), Cell(0, -1, 0), Cell(-1, 0, 0), Cell(0, 0, 6)];
    var first := Blit(t5, -32.0 - CameraOffset.x, -32.0 - CameraOffset.y);
    var second := Blit(t6, 0.0 - CameraOffset.x, 0.0 - CameraOffset.y);
    assert CellDraws([], atlas, size, lo) == [];
    assert CellDraws([Cell(-1, -1, 5)], atlas, size, lo) == [first] by {
      assert [Cell(-1, -1, 5)][..0] == [];
    }
    assert CellDraws([Cell(-1, -1, 5), Cell(0, -1, 0)], atlas, size, lo) == [first] by {
      assert [Cell(-1, -1, 5), Cell(0, -1, 0)][..1] == [Cell(-1, -1, 5)];
    }
    assert CellDraws([Cell(-1, -1, 5), Cell(0, -1, 0), Cell(-1, 0, 0)], atlas, size, lo) == [first] by {
      assert [Cell(-1, -1, 5), Cell(0, -1, 0), Cell(-1, 0, 0)][..2] == [Cell(-1, -1, 5), Cell(0, -1, 0)];
    }
    assert cells[..3] == [Cell(-1, -1, 5), Cell(0, -1, 0), Cell(-1, 0, 0)];
  }

  /** One 2x2 chunk at tile (-1, -1) holding [5, 0, 0, 6], 32-pixel tiles,
      over a tileset with firstgid 5 holding tiles 1 and 2 (registered as 5
      and 6): id 5 at pixel (-32, -32) and id 6 at pixel (0, 0), both then
      moved by the layer offset and the camera's screen-centre offset. */
  lemma ChunkExample(imageWidth: string -> int, target: Vec2f)
    ensures var t5 := Texture("tiled_project/grass.png", imageWidth("tiled_project/grass.png"));
            var t6 := Texture("tiled_project/stone.png", imageWidth("tiled_project/stone.png"));
            TileLayerDraws(TileLayer(Vec2f(0.0, 0.0), Vec2f(1.0, 1.0), Vec2i(0, 0), [],
                                     [Chunk([5, 0, 0, 6], Vec2i(2, 2), Vec2i(-1, -1))]),
                           AtlasOf([Tileset(5, [Tile(1, "grass.png"), Tile(2, "stone.png")])], imageWidth),
                           Vec2i(32, 32), target)
            == [Blit(t5, -32.0 - CameraOffset.x, -32.0 - CameraOffset.y), Blit(t6, 0.0 - CameraOffset.x, 0.0 - CameraOffset.y)]
  {
    var t5 := Texture("tiled_project/grass.png", imageWidth("tiled_project/grass.png"));
    var t6 := Texture("tiled_project/stone.png", imageWidth("tiled_project/stone.png"));
    assert "tiled_project/" + "grass.png" == "tiled_project/grass.png";
    assert "tiled_project/" + "stone.png" == "tiled_project/stone.png";
    TwoTileAtlas(5, "grass.png", "stone.png", imageWidth);
    ChunkExampleDraws(t5, t6, target);
  }

  // ---------------------------------------------------------------------
  // Objects

  /** The overlay of one object: a fill in its colour with alpha 100, a
      2-pixel outline in its colour and its name in white at size 20, 5
      pixels in from the top-left corner; the rectangle is the object's,
      moved by the camera's screen-centre offset only. */
  function ObjectDraws(o: MapObject): (d: seq<DrawCommand>)
    ensures |d| == 3 && d[0].FillRect? && d[1].RectLines? && d[2].Label?
    ensures d[1].rect == d[0].rect
    ensures d[0].rect.x == o.rect.x - CameraOffset.x && d[0].rect.y == o.rect.y - CameraOffset.y
    ensures d[0].rect.width == o.rect.width && d[0].rect.height == o.rect.height
    ensures d[0].color == Color(o.color.r, o.color.g, o.color.b, 100)
    ensures d[1].thickness == 2 && d[1].color == o.color
    ensures d[2] == Label(o.name, d[0].rect.x + 5.0, d[0].rect.y + 5.0, 20, WHITE)
  {
    var r := Rect(o.rect.x - CameraOffset.x, o.rect.y - CameraOffset.y, o.rect.width, o.rect.height);
    [FillRect(r, o.color.(a := 100)), RectLines(r, 2, o.color), Label(o.name, r.x + 5.0, r.y + 5.0, 20, WHITE)]
  }

  function ObjectsDraws(objs: seq<MapObject>): seq<DrawCommand>
  {
    if |objs| == 0 then []
    else ObjectsDraws(objs[..|objs| - 1]) + ObjectDraws(objs[|objs| - 1])
  }

  /** The drawing of the object overlay in the frame loop. */
  method DrawObjects(objs: seq<MapObject>) returns (cmds: seq<DrawCommand>)
    ensures cmds == ObjectsDraws(objs)
  {
    cmds := [];
    for k := 0 to |objs|
      invariant cmds == ObjectsDraws(objs[..k])
    {
      var o := objs[k];
      var drawRect := Rect(o.rect.x - CameraOffset.x, o.rect.y - CameraOffset.y, o.rect.width, o.rect.height);
      var fillColor := o.color.(a := 100);
      cmds := cmds + [FillRect(drawRect, fillColor), RectLines(drawRect, 2, o.color),
                      Label(o.name, drawRect.x + 5.0, drawRect.y + 5.0, 20, WHITE)];
      assert objs[..k + 1][..k] == objs[..k];
    }
    assert objs[..|objs|] == objs;
  }

  /** Three commands per object, in object order: commands 3k .. 3k + 2
      are the overlay of object k. */
  lemma {:induction false} ObjectOverlayLayout(objs: seq<MapObject>)
    ensures |ObjectsDraws(objs)| == 3 * |objs|
    ensures forall k :: 0 <= k < |objs| ==> ObjectsDraws(objs)[3 * k .. 3 * k + 3] == ObjectDraws(objs[k])
  {
    if |objs| > 0 {
      var n := |objs| - 1;
      var front := objs[..n];
      ObjectOverlayLayout(front);
      var d := ObjectsDraws(objs);
      forall k | 0 <= k < |objs|
        ensures d[3 * k .. 3 * k + 3] == ObjectDraws(objs[k])
      {
        if k < n {
          assert front[k] == objs[k];
          assert d[3 * k .. 3 * k + 3] == ObjectsDraws(front)[3 * k .. 3 * k + 3];
        }
      }
    }
  }

  // ---------------------------------------------------------------------
  // The frame

  /** The draws of all tile layers among layers, in document order. */
  function TileLayersDraws(layers: seq<Layer>, atlas: TextureAtlas, tileSize: Vec2i, target: Vec2f): seq<DrawCommand>
    requires forall l :: l in layers ==> LayerShaped(l)
  {
    if |layers| == 0 then []
    else
      var l := layers[|layers| - 1];
      TileLayersDraws(layers[..|layers| - 1], atlas, tileSize, target) +
      (if l.TileLayer? then TileLayerDraws(l, atlas, tileSize, target) else [])
  }

  /** The image-layer loop of a frame. */
  method DrawImageLayers(infos: seq<ImageLayerInfo>, target: Vec2f) returns (cmds: seq<DrawCommand>)
    requires forall info :: info in infos ==> ImageLayerDrawable(info)
    ensures cmds == ImageLayersDraws(infos, target)
  {
    cmds := [];
    for k := 0 to |infos|
      invariant cmds == ImageLayersDraws(infos[..k], target)
    {
      assert infos[k] in infos;
      var draws := DrawImageLayer(infos[k], target);
      cmds := cmds + draws;
      assert infos[..k + 1][..k] == infos[..k];
    }
    assert infos[..|infos|] == infos;
  }

  /** The tile-layer loop of a frame: layers of other kinds are passed over. */
  method DrawTileLayers(layers: seq<Layer>, atlas: TextureAtlas, tileSize: Vec2i, target: Vec2f) returns (cmds: seq<DrawCommand>)
    requires forall l :: l in layers ==> LayerShaped(l)
    ensures cmds == TileLayersDraws(layers, atlas, tileSize, target)
  {
    cmds := [];
    for k := 0 to |layers|
      invariant cmds == TileLayersDraws(layers[..k], atlas, tileSize, target)
    {
      var layer := layers[k];
      assert layer in layers;
      if layer.TileLayer? {
        var draws := DrawTileLayer(layer, atlas, tileSize, target);
        cmds := cmds + draws;
      }
      assert layers[..k + 1][..k] == layers[..k];
    }
    assert layers[..|layers|] == layers;
  }

  /** One frame: every image layer, then every tile layer, then the object
      overlay. */
  method RenderFrame(infos: seq<ImageLayerInfo>, layers: seq<Layer>, atlas: TextureAtlas, tileSize: Vec2i,
                     objs: seq<MapObject>, target: Vec2f) returns (cmds: seq<DrawCommand>)
    requires forall info :: info in infos ==> ImageLayerDrawable(info)
    requires forall l :: l in layers ==> LayerShaped(l)
    ensures cmds == ImageLayersDraws(infos, target) + TileLayersDraws(layers, atlas, tileSize, target) + ObjectsDraws(objs)
  {
    var images := DrawImageLayers(infos, target);
    var tiles := DrawTileLayers(layers, atlas, tileSize, target);
    var overlay := DrawObjects(objs);
    cmds := images + tiles + overlay;
  }

  /** Every draw of a tile layer uses a texture held in the atlas. */
  lemma {:induction false} TileDrawsUseAtlas(layers: seq<Layer>, atlas: TextureAtlas, tileSize: Vec2i, target: Vec2f)
    requires forall l :: l in layers ==> LayerShaped(l)
    ensures forall cmd :: cmd in TileLayersDraws(layers, atlas, tileSize, target) ==>
              cmd.Blit? && cmd.texture in atlas.Values
  {
    if |layers| > 0 {
      var n := |layers| - 1;
      TileDrawsUseAtlas(layers[..n], atlas, tileSize, target);
      var l := layers[n];
      if l.TileLayer? {
        var cells := LayerCells(l);
        var lo := LayerOffset(l.offset, l.parallax, target);
        CellDrawsSelect(cells, atlas, tileSize, lo);
        forall cmd | cmd in TileLayerDraws(l, atlas, tileSize, target)
          ensures cmd.Blit? && cmd.texture in atlas.Values
        {
          var k :| 0 <= k < |CellDraws(cells, atlas, tileSize, lo)| && CellDraws(cells, atlas, tileSize, lo)[k] == cmd;
          var c := cells[DrawableIndices(cells, atlas)[k]];
          assert cmd == TileDraw(c, atlas, tileSize, lo);
        }
      }
    }
  }

  /** A repeating image layer can be drawn once its image has a positive
      width. */
  predicate RepeatingImagesLoad(layers: seq<Layer>, imageWidth: string -> int)
  {
    forall l :: l in layers && l.ImageLayer? && l.repeatX ==> imageWidth(StripParentDir(l.image)) > 0
  }

  /** Loading (atlas, image layers, objects) followed by one frame, as the
      main program does it. */
  method RenderMapFrame(m: TileMap, imageWidth: string -> int, target: Vec2f) returns (cmds: seq<DrawCommand>)
    requires forall l :: l in m.layers ==> LayerShaped(l)
    requires RepeatingImagesLoad(m.layers, imageWidth)
    ensures forall info :: info in ImageLayersOf(m.layers, imageWidth) ==> ImageLayerDrawable(info)
    ensures cmds == ImageLayersDraws(ImageLayersOf(m.layers, imageWidth), target)
                  + TileLayersDraws(m.layers, AtlasOf(m.tilesets, imageWidth), m.tileSize, target)
                  + ObjectsDraws(ObjectsOf(m.layers))
  {
    var atlas := BuildAtlas(m.tilesets, imageWidth);
    var infos := CollectImageLayers(m.layers, imageWidth);
    var objs := ExtractObjects(m.layers);
    ImageLayersCoverImageLayers(m.layers, imageWidth);
    forall info | info in infos
      ensures ImageLayerDrawable(info)
    {
      var i :| 0 <= i < |m.layers| && m.layers[i].ImageLayer? && info == InfoOf(m.layers[i], imageWidth);
      assert m.layers[i] in m.layers;
    }
    cmds := RenderFrame(infos, m.layers, atlas, m.tileSize, objs, target);
  }
}
