# LazyJumper map compositor, modelled in Dafny

LazyJumper's `main()` loads a Tiled map through the tileson parser and draws it with raylib.
Apart from window and input handling, it does four things:

- It builds a **texture atlas**: every tile of every tileset is loaded from
  `tiled_project/<image>` and stored under the key `tile id + firstgid - 1`.
- It **collects the image layers** (parallax backgrounds) in document order.
  Each image path loses one leading `"../"`.
- It **extracts the objects** of every object group as red debug rectangles.
- Every frame, it **composites**:
  - the image layers, each at its parallax offset, repeated across the screen when `repeatX` is set;
  - then every tile layer, walking its flat data or its chunks and skipping id 0 and ids with no
    atlas entry;
  - then the object overlay.

This project models that core as stand-alone definitions:

- The parsed map is a value, `TiledMap.TileMap`.
- Every call to a drawing primitive becomes a `TiledMap.DrawCommand` in an output sequence
  (`Blit`, `FillRect`, `RectLines`, `Label`).
- Each loop of the source is a method whose `ensures` ties its result to a specification function.
- The properties the source promises are lemmas about those functions.

Modules, one per file:

- `TiledMap` (`tiled_map.dfy`): map, tileset, layer, chunk and object values.
  It also has the `uint32_t`→`int` conversion, the textures, colours and draw commands, the
  1440×960 screen and the camera's screen-centre offset (720, 480).
- `Paths` (`paths.dfy`): `std::string::substr` and the `"../"` strip.
- `Atlas` (`atlas.dfy`): the atlas keys, the load loop and what ends up in the atlas.
- `ImageLayers` (`image_layers.dfy`): the image-layer records.
- `Objects` (`objects.dfy`): the object extraction.
- `Compositor` (`compositor.dfy`): parallax offsets, image-layer copies, the finite and chunked
  tile walks (one `Cell` sequence for both), the object overlay, the whole frame, and load plus
  one frame together.

Widths and ids follow the C++ types:

- Tile ids are `uint32_t` (`TiledMap.u32`). The atlas key is an `int`.
- The key `tile.getId() + tileset.getFirstgid() - 1` is computed modulo 2^32 and then converted
  to `int`. A data id is converted to `int` for the lookup.
- Both conversions are written out (`TiledMap.AsInt`, `Atlas.AtlasKey`, `Atlas.LookupKey`).
  `Atlas.LookupFindsTile` states when the two keys agree.

Positions are exact `real`s, and tile-grid arithmetic uses `int`.

Notes on what the code does:

- **Frame order.** The code draws *all* image layers first, then *all* tile layers in document
  order, then the objects (main.cpp:184-302). Image and tile layers are not interleaved.
  `Compositor.RenderFrame` states this order.
- **Atlas entries.** The atlas registers every tile, whether or not its image loads (main.cpp:51-55).
  A failed load leaves a texture of width 0 under the tile's key. Only ids that no tile
  registers are skipped when drawing.
- **Image-layer paths.** Only the leading `"../"` is removed. No `tiled_project/` prefix is added,
  although the comment at main.cpp:74 mentions one.
- **Tile placement.** In a finite layer, index i is column `i % width` of row `i / width`. For
  example, index 2 of a width-2 layer is column 0 of row 1, pixel (0, 16) with 16-pixel tiles
  (`Compositor.FlatLayerExample`).
- **Parallax factor 0.** A layer with factor 0 is offset by the full camera target *before* the
  camera transform (`Compositor.LayerOffset`). It stays fixed on screen only after raylib's
  2D camera transform, which is not modelled.
- **Object overlay.** The overlay is drawn at the object rectangle minus the camera's
  screen-centre offset, not minus the camera target (main.cpp:284-289).

## Model

| member | source | states |
|---|---|---|
| `TiledMap.AsInt` | main.cpp:273-274 | the `uint32_t` tile id converted to `int` is the unique value in [-2^31, 2^31) congruent to it modulo 2^32, and equals it below 2^31 |
| `Paths.Substr` | main.cpp:75-76 | `substr(pos, count)` yields the longest run of at most `count` characters of `s` starting at `pos` |
| `Paths.SubstrPrefixTest` | main.cpp:75 | the test `substr(0, 3) == "../"` holds exactly when the path starts with `"../"`, also for paths shorter than three characters |
| `Paths.StripParentDir` | main.cpp:75-77 | a path starting with `"../"` is returned without it (putting `"../"` back restores the path); any other path is returned unchanged |
| `Paths.StripRemovesOneStep` | main.cpp:75-77 | the strip removes exactly one leading `"../"` from any path: `"../" + q` becomes `q`, even when `q` itself starts with `"../"` |
| `Paths.StripKeepsOtherPaths` | main.cpp:75-77 | a path not starting with `"../"`, including any shorter than three characters, is left unchanged |
| `Paths.StripChangesIffPrefixed` | main.cpp:75-77 | the path changes if and only if it starts with `"../"`, and putting `"../"` back in front restores it |
| `Atlas.AtlasKey` | main.cpp:55 | the key of a tile is congruent to `id + firstgid - 1` modulo 2^32, lies in the `int` range, and equals `id + firstgid - 1` whenever that is a non-negative `int` |
| `Atlas.LookupKey` | main.cpp:254 | the lookup key of a data id below 2^31 is the id itself |
| `Atlas.LookupFindsTile` | main.cpp:55 | a data id finds the tile registered under `(id, firstgid)` if and only if it equals `id + firstgid - 1` modulo 2^32 |
| `Atlas.BuildAtlas` | main.cpp:45-57 | the nested load loop produces exactly `AtlasOf(tilesets)`: the tiles registered one after another, in tileset order and then tile order |
| `Atlas.InsertTilesOverrides` | main.cpp:50-56 | registering a tileset's tiles on top of an atlas overrides the atlas with that tileset's own registrations |
| `Atlas.LaterTilesetOverrides` | main.cpp:49-56 | appending a tileset overrides the earlier atlas with that tileset's registrations: a later tileset wins on a key collision |
| `Atlas.InsertTilesKeys` | main.cpp:50-56 | one tileset registers exactly the keys of its tiles and no others |
| `Atlas.InsertTilesLastWins` | main.cpp:50-56 | within one tileset, a key holds the texture of the last tile that registered it |
| `Atlas.AtlasKeys` | main.cpp:49-57 | a key is in the atlas if and only if some tile of some tileset registers it |
| `Atlas.AtlasLastRegistrationWins` | main.cpp:49-56 | under each key the atlas holds the texture of the last tile, in load order, that registered that key |
| `Atlas.AtlasResolvesEveryTile` | main.cpp:49-56 | when no two tiles share a key (the tilesets' id ranges do not overlap), every tile is in the atlas under its own key, holding the texture loaded from `"tiled_project/" + image` |
| `Compositor.TwoTileAtlas` | main.cpp:49-56 | a tileset with firstgid g holding tiles 1 and 2 gives the atlas {g ↦ texture of tile 1, g + 1 ↦ texture of tile 2}, each loaded from `"tiled_project/" + image` |
| `ImageLayers.CollectImageLayers` | main.cpp:67-100 | the collection loop produces exactly `ImageLayersOf(layers)`: one record per image layer, pushed in document order |
| `ImageLayers.ImageLayersConcat` | main.cpp:69-100 | collection keeps document order: the records of `a + b` are those of `a` followed by those of `b` |
| `ImageLayers.ImageLayersCoverImageLayers` | main.cpp:69-100 | there are as many records as image layers, and a record is present if and only if it is the record of some image layer of the input |
| `ImageLayers.ImageLayerRecordAt` | main.cpp:72-98 | the record of the image layer at index i is at its rank among the image layers. Its texture is loaded from the layer's path with a leading `"../"` removed and no prefix added, and it keeps the layer's offset, parallax factor and repeat flag |
| `Objects.ExtractObjects` | main.cpp:103-147 | the extraction loop produces exactly `ObjectsOf(layers)`: the objects of each object group, in order, layer after layer |
| `Objects.ObjectsConcat` | main.cpp:104-147 | extraction keeps document order across layers |
| `Objects.ObjectsFromGroups` | main.cpp:104-139 | every extracted object is RED and is the copy of an object of some object group; other layer kinds contribute nothing |
| `Objects.ObjectCount` | main.cpp:104-147 | there are exactly as many extracted objects as objects placed in object groups |
| `Objects.ObjectsCoverGroups` | main.cpp:128-139 | object j of the group at index i is extracted, right after the objects of earlier groups: a RED MapObject with its name, type and rectangle (position.x, position.y, size.x, size.y) |
| `Objects.GroupPlacementIgnored` | main.cpp:104-139 | an object group's offset and parallax factor do not affect the extracted objects |
| `Compositor.LayerOffset` | main.cpp:220-228 | the parallax offset is the plain offset for factor (1, 1), and the offset plus the whole camera target for factor (0, 0) |
| `Compositor.ParallaxCameraShift` | main.cpp:220-228 | moving the camera target by d moves a layer by d·(1 − parallax) per axis |
| `Compositor.CopiesLayout` | main.cpp:197-204 | `n` copies starting at index `first` are `n` draws, copy k at `origin.x + (first + k)·width`, all at `origin.y` |
| `Compositor.DrawImageLayer` | main.cpp:184-213 | drawing one image layer produces exactly `ImageLayerDraws`: copies −1 … repetitions − 1 when it repeats, and one copy otherwise |
| `Compositor.ImageLayerLayout` | main.cpp:192-212 | a repeating layer gets `ScreenWidth / width + 3` draws, draw k at `origin.x + (k − 1)·width`, neighbours exactly one width apart at the same y; a non-repeating layer gets one draw at its origin |
| `Compositor.RepeatCoversViewport` | main.cpp:194-204 | the copies cover, with no gap, every pixel column from one texture width left of the origin to one texture width past the screen's right edge |
| `Compositor.DrawChunk` | main.cpp:234-257 | the walk over one chunk produces exactly the draws of that chunk's tiles, in index order |
| `Compositor.DrawFlatTiles` | main.cpp:261-276 | the walk over a finite layer's data produces exactly the draws of its tiles, in index order |
| `Compositor.DrawTileLayer` | main.cpp:217-279 | one tile layer is drawn from its chunks, one after another, when it has any, and otherwise from its flat data, at its parallax offset |
| `Compositor.CellDrawsAppend` | main.cpp:241-276 | the draws of consecutive runs of tiles are the concatenation of their draws |
| `Compositor.UndrawableTileSkipped` | main.cpp:264-276 | a tile with id 0, or with an id missing from the atlas, adds no draw wherever it stands |
| `Compositor.DrawableIndicesSpec` | main.cpp:264-276 | the drawn positions are strictly increasing, and are exactly the positions whose id is non-zero and in the atlas |
| `Compositor.CellDrawsSelect` | main.cpp:264-276 | the k-th draw is the draw of the k-th drawable tile: its atlas texture, at its tile position times the tile size, plus the layer offset, minus the screen-centre offset |
| `Compositor.FlatLayerDraws` | main.cpp:261-276 | in a finite layer, draw k comes from data index i (increasing in k), where id ≠ 0 and the id is in the atlas. It sits at ((i % width)·tileWidth + offset.x − 720, (i / width)·tileHeight + offset.y − 480), and every such index is drawn |
| `Compositor.ChunksCellsMembers` | main.cpp:234-251 | the tiles of a chunked layer are exactly those of its chunks, tile i of a chunk at world tile (chunkX + i % chunkWidth, chunkY + i / chunkWidth) |
| `Compositor.ChunkedLayerDraws` | main.cpp:234-257 | in a chunked layer, draw k comes from the k-th drawable tile of the walk (chunk after chunk, increasing index within a chunk). That tile is tile i of some chunk j, with id ≠ 0 and in the atlas, drawn at ((chunkX + i % chunkWidth)·tileWidth + offset.x − 720, (chunkY + i / chunkWidth)·tileHeight + offset.y − 480) |
| `Compositor.ChunkedLayerDrawsEvery` | main.cpp:234-257 | every tile of every chunk with id ≠ 0 and in the atlas is drawn, at that position, by the draw of its place in the walk |
| `Compositor.ChunkHeightUnused` | main.cpp:236-251 | chunks that agree on data, position and width give the same tiles: the chunk height is never used |
| `Compositor.ChunkedLayerIgnoresFlatData` | main.cpp:231-232 | a layer with chunks is drawn from its chunks alone; its flat data and size are not read |
| `Compositor.CellDrawsAreDrawableDraws` | main.cpp:241-276 | walking a layer's tiles draws exactly its drawable tiles (id ≠ 0, in the atlas), one draw each, in walk order |
| `Compositor.ChunkAtOriginMatchesFlat` | main.cpp:231-276 | the same tiles stored as a finite layer, or as one chunk of the same width at the origin, give the same draws in the same order |
| `Compositor.SameTilesSameDraws` | main.cpp:231-277 | two tile layers at the same offset and parallax whose drawable tiles are the same ids at the same world tiles (in any layout: finite data, or any chunks at any positions and widths, in any order) give the same draws, up to order |
| `Compositor.FlatLayerExample` | main.cpp:261-276 | over the atlas built from a tileset with firstgid 1 holding tiles 1 and 2, layer `[1, 0, 2, 0]` of width 2 with 16-pixel tiles gives exactly two draws: tile 1's texture at (0, 0) and tile 2's at (0, 16), both minus the screen-centre offset |
| `Compositor.ChunkExample` | main.cpp:234-257 | over the atlas built from a tileset with firstgid 5 holding tiles 1 and 2 (keys 5 and 6), chunk `[5, 0, 0, 6]` at (−1, −1), 2 wide, with 32-pixel tiles gives exactly two draws: tile 1's texture at (−32, −32) and tile 2's at (0, 0), both minus the screen-centre offset |
| `Compositor.ObjectDraws` | main.cpp:284-301 | three commands for one object: a fill and a 2-pixel outline of the same rectangle, the object rectangle moved by the screen-centre offset with size unchanged, the fill in the object colour at alpha 100 and the outline in the object colour, then its name in white at size 20, 5 pixels right and down from the rectangle corner |
| `Compositor.DrawObjects` | main.cpp:282-302 | the overlay loop produces exactly `ObjectsDraws(objs)` |
| `Compositor.ObjectOverlayLayout` | main.cpp:282-302 | three commands per object, in object order. Each object gets its rectangle minus the screen-centre offset with size unchanged, filled in its colour at alpha 100, a 2-pixel outline in its colour, and its name in white at size 20, 5 pixels in from the corner |
| `Compositor.DrawImageLayers` | main.cpp:184-214 | the image-layer loop draws every record, in order |
| `Compositor.DrawTileLayers` | main.cpp:217-279 | the tile-layer loop draws every tile layer in document order and passes over the other kinds |
| `Compositor.RenderFrame` | main.cpp:183-302 | a frame is all image-layer draws, then all tile-layer draws, then the object overlay |
| `Compositor.TileDrawsUseAtlas` | main.cpp:253-256 | every tile-layer draw is a `Blit` of a texture held in the atlas |
| `Compositor.RenderMapFrame` | main.cpp:45-302 | loading the atlas, image layers and objects and then drawing one frame gives the frame defined from `AtlasOf`, `ImageLayersOf` and `ObjectsOf` of the map |

## Left out

- Window and frame-loop plumbing (`InitWindow`, `WindowShouldClose`, `BeginDrawing`/`EndDrawing`,
  `ClearBackground`, `DrawFPS`, the HUD text) is not modelled. These are raylib I/O.
- The 2D camera transform of `BeginMode2D` is not modelled. Commands carry the coordinates
  passed to the primitives.
- Keyboard camera motion (`cameraSpeed * deltaTime`) is not modelled. It is input handling and
  float time-stepping; the camera target is a parameter.
- Image loading, texture creation and unloading are foreign calls.
  - A texture is its path and its width.
  - The loader's width report is the parameter `imageWidth`.
  - Unloading at teardown is not modelled.
- The tileson parser and its fatal parse-status check are an external library. A `TileMap` value
  stands for a successful parse.
- Float semantics are not modelled. Positions are exact reals, and the truncation of positions
  to `int` inside `DrawTexture` and `DrawText` is not modelled.
- Console output is not modelled, nor are the map size and infinite flag, which are only logged.
- The commented-out per-layer colour parsing is dead code and is not modelled.
- The `WHITE` tint passed to `DrawTexture` is not recorded in `Blit`. It is the same for every
  texture draw.
- Integer widths in the tile walk are not modelled. `size_t`/`int` overflow of tile positions
  is left out, and so is the unsigned wrap of a negative tile width in the finite-layer product.
- `Compositor.DrawTileLayer` requires a positive row width for the data it walks: the chunk
  width of every chunk of a chunked layer, and the layer width of a finite layer with data.
  A width of 0 is a division by zero in the source; a negative width, converted to `size_t`,
  is not modelled.
- `Compositor.DrawImageLayer` requires a positive texture width for a repeating layer. In the
  source, a repeating layer whose image fails to load divides by zero.
- Nested group layers are not traversed, as in the source. Group layers are `OtherLayer`,
  which every pass skips.
