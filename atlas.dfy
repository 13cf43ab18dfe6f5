/** The texture atlas built once at load time: every tile of every tileset
    is loaded from "tiled_project/<image>" and registered under its global
    id, in tileset order and tile order, so that a later registration under
    the same key replaces an earlier one. */
module Atlas {
  import opened TiledMap

  type TextureAtlas = map<int, Texture>

  /** The key `tile.getId() + tileset.getFirstgid() - 1`: a uint32_t sum
      (so taken modulo 2^32) stored into the atlas's int key. */
  function AtlasKey(id: u32, firstgid: int): (k: int)
    ensures -0x8000_0000 <= k < 0x8000_0000
    ensures (id as int + firstgid - 1 - k) % 0x1_0000_0000 == 0
    ensures 0 <= id as int + firstgid - 1 < 0x8000_0000 ==> k == id as int + firstgid - 1
  {
    AsInt(((id as int + firstgid - 1) % 0x1_0000_0000) as u32)
  }

  /** The key a tile id read from layer data is looked up under: the
      uint32_t id converted to the atlas's int key type. */
  function LookupKey(gid: u32): (k: int)
    ensures gid < 0x8000_0000 ==> k == gid as int
  {
    AsInt(gid)
  }

  /** Two uint32_t values convert to the same int only if they are equal. */
  lemma AsIntInjective(a: u32, b: u32)
    requires AsInt(a) == AsInt(b)
    ensures a == b
  {
    if a < 0x8000_0000 && b >= 0x8000_0000 {
      assert false;
    } else if a >= 0x8000_0000 && b < 0x8000_0000 {
      assert false;
    }
  }

  /** A tile id from layer data finds the tile registered under
      (id, firstgid) exactly when it equals id + firstgid - 1 modulo 2^32. */
  lemma LookupFindsTile(gid: u32, id: u32, firstgid: int)
    ensures LookupKey(gid) == AtlasKey(id, firstgid)
        <==> gid as int == (id as int + firstgid - 1) % 0x1_0000_0000
  {
    var w := ((id as int + firstgid - 1) % 0x1_0000_0000) as u32;
    if LookupKey(gid) == AtlasKey(id, firstgid) {
      AsIntInjective(gid, w);
    }
  }

  /** The texture loaded for a tile; imageWidth stands for the image
      loader and gives the width of the image at a path. */
  function TileTexture(t: Tile, imageWidth: string -> int): Texture
  {
    var path := "tiled_project/" + t.image;
    Texture(path, imageWidth(path))
  }

  /** m after registering the tiles of one tileset, one after the other. */
  function InsertTiles(m: TextureAtlas, firstgid: int, tiles: seq<Tile>, imageWidth: string -> int): TextureAtlas
  {
    if |tiles| == 0 then m
    else
      var t := tiles[|tiles| - 1];
      InsertTiles(m, firstgid, tiles[..|tiles| - 1], imageWidth)[AtlasKey(t.id, firstgid) := TileTexture(t, imageWidth)]
  }

  /** The registrations one tileset makes on its own. */
  function TilesetAtlas(ts: Tileset, imageWidth: string -> int): TextureAtlas
  {
    InsertTiles(map[], ts.firstgid, ts.tiles, imageWidth)
  }

  /** The atlas after all tilesets, in order. */
  function AtlasOf(tilesets: seq<Tileset>, imageWidth: string -> int): TextureAtlas
  {
    if |tilesets| == 0 then map[]
    else
      var ts := tilesets[|tilesets| - 1];
      InsertTiles(AtlasOf(tilesets[..|tilesets| - 1], imageWidth), ts.firstgid, ts.tiles, imageWidth)
  }

  /** The nested loading loop of the main program. */
  method BuildAtlas(tilesets: seq<Tileset>, imageWidth: string -> int) returns (atlas: TextureAtlas)
    ensures atlas == AtlasOf(tilesets, imageWidth)
  {
    atlas := map[];
    for i := 0 to |tilesets|
      invariant atlas == AtlasOf(tilesets[..i], imageWidth)
    {
      var tileset := tilesets[i];
      for j := 0 to |tileset.tiles|
        invariant atlas == InsertTiles(AtlasOf(tilesets[..i], imageWidth), tileset.firstgid, tileset.tiles[..j], imageWidth)
      {
        var tile := tileset.tiles[j];
        var path := "tiled_project/" + tile.image;
        atlas := atlas[AtlasKey(tile.id, tileset.firstgid) := Texture(path, imageWidth(path))];
        assert tileset.tiles[..j + 1][..j] == tileset.tiles[..j];
      }
      assert tileset.tiles[..|tileset.tiles|] == tileset.tiles;
      assert tilesets[..i + 1][..i] == tilesets[..i];
    }
    assert tilesets[..|tilesets|] == tilesets;
  }

  /** Registering tiles on top of m is m overridden by their own registrations. */
  lemma {:induction false} InsertTilesOverrides(m: TextureAtlas, firstgid: int, tiles: seq<Tile>, imageWidth: string -> int)
    ensures InsertTiles(m, firstgid, tiles, imageWidth) == m + InsertTiles(map[], firstgid, tiles, imageWidth)
  {
    if |tiles| > 0 {
      InsertTilesOverrides(m, firstgid, tiles[..|tiles| - 1], imageWidth);
    }
  }

  /** A later tileset overwrites an earlier one wherever their keys collide. */
  lemma LaterTilesetOverrides(tilesets: seq<Tileset>, ts: Tileset, imageWidth: string -> int)
    ensures AtlasOf(tilesets + [ts], imageWidth) == AtlasOf(tilesets, imageWidth) + TilesetAtlas(ts, imageWidth)
  {
    assert (tilesets + [ts])[..|tilesets|] == tilesets;
    InsertTilesOverrides(AtlasOf(tilesets, imageWidth), ts.firstgid, ts.tiles, imageWidth);
  }

  /** Tile j of a tileset registers key k. */
  predicate TileDefines(tiles: seq<Tile>, firstgid: int, j: int, k: int)
  {
    0 <= j < |tiles| && AtlasKey(tiles[j].id, firstgid) == k
  }

  /** A tileset's own registrations: one key per tile and nothing else. */
  lemma {:induction false} InsertTilesKeys(firstgid: int, tiles: seq<Tile>, imageWidth: string -> int)
    ensures forall k :: k in InsertTiles(map[], firstgid, tiles, imageWidth) <==> exists j :: TileDefines(tiles, firstgid, j, k)
  {
    if |tiles| > 0 {
      var n := |tiles| - 1;
      var front := tiles[..n];
      InsertTilesKeys(firstgid, front, imageWidth);
      var m := InsertTiles(map[], firstgid, tiles, imageWidth);
      var kn := AtlasKey(tiles[n].id, firstgid);
      assert m == InsertTiles(map[], firstgid, front, imageWidth)[kn := TileTexture(tiles[n], imageWidth)];
      assert TileDefines(tiles, firstgid, n, kn);
      forall k
        ensures k in m <==> exists j :: TileDefines(tiles, firstgid, j, k)
      {
        if k in m && k != AtlasKey(tiles[n].id, firstgid) {
          var j :| TileDefines(front, firstgid, j, k);
          assert TileDefines(tiles, firstgid, j, k);
        }
        if exists j :: TileDefines(tiles, firstgid, j, k) {
          var j :| TileDefines(tiles, firstgid, j, k);
          if j < n {
            assert TileDefines(front, firstgid, j, k);
          }
        }
      }
    }
  }

  /** Under each of its keys a tileset registers the texture of its last
      tile with that key. */
  lemma {:induction false} InsertTilesLastWins(firstgid: int, tiles: seq<Tile>, j: int, imageWidth: string -> int)
    requires 0 <= j < |tiles|
    requires forall j' :: j < j' < |tiles| ==> !TileDefines(tiles, firstgid, j', AtlasKey(tiles[j].id, firstgid))
    ensures AtlasKey(tiles[j].id, firstgid) in InsertTiles(map[], firstgid, tiles, imageWidth)
    ensures InsertTiles(map[], firstgid, tiles, imageWidth)[AtlasKey(tiles[j].id, firstgid)] == TileTexture(tiles[j], imageWidth)
  {
    var n := |tiles| - 1;
    var k := AtlasKey(tiles[j].id, firstgid);
    if j < n {
      var front := tiles[..n];
      assert !TileDefines(tiles, firstgid, n, k);
      forall j' | j < j' < |front|
        ensures !TileDefines(front, firstgid, j', k)
      {
        assert !TileDefines(tiles, firstgid, j', k);
      }
      InsertTilesLastWins(firstgid, front, j, imageWidth);
    }
  }

  /** Tile j of tileset i registers key k. */
  predicate Defines(tilesets: seq<Tileset>, i: int, j: int, k: int)
  {
    0 <= i < |tilesets| && TileDefines(tilesets[i].tiles, tilesets[i].firstgid, j, k)
  }

  /** The atlas has exactly one key per registered (tileset, tile) key and
      no other. */
  lemma {:induction false} AtlasKeys(tilesets: seq<Tileset>, imageWidth: string -> int)
    ensures forall k :: k in AtlasOf(tilesets, imageWidth) <==> exists i, j :: Defines(tilesets, i, j, k)
  {
    if |tilesets| > 0 {
      var n := |tilesets| - 1;
      var front := tilesets[..n];
      var ts := tilesets[n];
      AtlasKeys(front, imageWidth);
      LaterTilesetOverrides(front, ts, imageWidth);
      InsertTilesKeys(ts.firstgid, ts.tiles, imageWidth);
      assert front + [ts] == tilesets;
      forall k
        ensures k in AtlasOf(tilesets, imageWidth) <==> exists i, j :: Defines(tilesets, i, j, k)
      {
        if k in TilesetAtlas(ts, imageWidth) {
          var j :| TileDefines(ts.tiles, ts.firstgid, j, k);
          assert Defines(tilesets, n, j, k);
        } else if k in AtlasOf(front, imageWidth) {
          var i, j :| Defines(front, i, j, k);
          assert Defines(tilesets, i, j, k);
        }
        if exists i, j :: Defines(tilesets, i, j, k) {
          var i, j :| Defines(tilesets, i, j, k);
          if i < n {
            assert Defines(front, i, j, k);
          } else {
            assert TileDefines(ts.tiles, ts.firstgid, j, k);
          }
        }
      }
    }
  }

  /** Pair (i', j') comes after (i, j) in the loading order. */
  predicate LoadedAfter(i': int, j': int, i: int, j: int)
  {
    i' > i || (i' == i && j' > j)
  }

  /** Under each key the atlas holds the texture of the last tile, in
      loading order, that registered it. */
  lemma {:induction false} AtlasLastRegistrationWins(tilesets: seq<Tileset>, i: int, j: int, imageWidth: string -> int)
    requires 0 <= i < |tilesets| && 0 <= j < |tilesets[i].tiles|
    requires forall i', j' :: LoadedAfter(i', j', i, j) ==>
               !Defines(tilesets, i', j', AtlasKey(tilesets[i].tiles[j].id, tilesets[i].firstgid))
    ensures AtlasKey(tilesets[i].tiles[j].id, tilesets[i].firstgid) in AtlasOf(tilesets, imageWidth)
    ensures AtlasOf(tilesets, imageWidth)[AtlasKey(tilesets[i].tiles[j].id, tilesets[i].firstgid)]
            == TileTexture(tilesets[i].tiles[j], imageWidth)
  {
    var n := |tilesets| - 1;
    var front := tilesets[..n];
    var ts := tilesets[n];
    var k := AtlasKey(tilesets[i].tiles[j].id, tilesets[i].firstgid);
    LaterTilesetOverrides(front, ts, imageWidth);
    InsertTilesKeys(ts.firstgid, ts.tiles, imageWidth);
    assert front + [ts] == tilesets;
    if i == n {
      forall j' | j < j' < |ts.tiles|
        ensures !TileDefines(ts.tiles, ts.firstgid, j', k)
      {
        assert LoadedAfter(n, j', i, j);
        assert !Defines(tilesets, n, j', k);
      }
      InsertTilesLastWins(ts.firstgid, ts.tiles, j, imageWidth);
    } else {
      if k in TilesetAtlas(ts, imageWidth) {
        var j' :| TileDefines(ts.tiles, ts.firstgid, j', k);
        assert LoadedAfter(n, j', i, j);
        assert Defines(tilesets, n, j', k);
        assert false;
      }
      forall i', j' | LoadedAfter(i', j', i, j)
        ensures !Defines(front, i', j', k)
      {
        assert !Defines(tilesets, i', j', k);
      }
      assert Defines(front, i, j, k);
      AtlasLastRegistrationWins(front, i, j, imageWidth);
    }
  }

  /** No two tiles, in the same or in different tilesets, register the
      same key: the tilesets' id ranges do not overlap. */
  ghost predicate KeysDisjoint(tilesets: seq<Tileset>)
  {
    forall i, j, i', j', k :: Defines(tilesets, i, j, k) && Defines(tilesets, i', j', k) ==> i == i' && j == j'
  }

  /** With disjoint id ranges every tile is found under its own key, which
      is localId + firstgid - 1 whenever that fits in an int, holding the
      texture loaded from the tile's image under "tiled_project/". */
  lemma AtlasResolvesEveryTile(tilesets: seq<Tileset>, i: int, j: int, imageWidth: string -> int)
    requires KeysDisjoint(tilesets)
    requires 0 <= i < |tilesets| && 0 <= j < |tilesets[i].tiles|
    ensures AtlasKey(tilesets[i].tiles[j].id, tilesets[i].firstgid) in AtlasOf(tilesets, imageWidth)
    ensures AtlasOf(tilesets, imageWidth)[AtlasKey(tilesets[i].tiles[j].id, tilesets[i].firstgid)]
            == TileTexture(tilesets[i].tiles[j], imageWidth)
    ensures AtlasOf(tilesets, imageWidth)[AtlasKey(tilesets[i].tiles[j].id, tilesets[i].firstgid)].path
            == "tiled_project/" + tilesets[i].tiles[j].image
    ensures AtlasOf(tilesets, imageWidth)[AtlasKey(tilesets[i].tiles[j].id, tilesets[i].firstgid)].width
            == imageWidth("tiled_project/" + tilesets[i].tiles[j].image)
  {
    var k := AtlasKey(tilesets[i].tiles[j].id, tilesets[i].firstgid);
    assert Defines(tilesets, i, j, k);
    forall i', j' | LoadedAfter(i', j', i, j)
      ensures !Defines(tilesets, i', j', k)
    {
    }
    AtlasLastRegistrationWins(tilesets, i, j, imageWidth);
  }
}
