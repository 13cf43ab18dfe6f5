/** The load-time object extraction: every object of every object group
    becomes a MapObject with its placed rectangle and the layer colour, which
    is always RED (per-layer colour properties are not read). The layer's
    offset and parallax factor play no part. */
module Objects {
  import opened TiledMap

  datatype MapObject = MapObject(name: string, kind: string, rect: Rect, color: Color)

  /** The MapObject made from one object of a layer drawn in color. */
  function ToMapObject(o: Object, color: Color): MapObject
  {
    MapObject(o.name, o.kind, Rect(o.position.x as real, o.position.y as real, o.size.x as real, o.size.y as real), color)
  }

  /** The objects one layer contributes: those of an object group, in
      order, and nothing for any other kind of layer. */
  function LayerObjects(l: Layer): seq<MapObject>
  {
    if l.ObjectGroup? then seq(|l.objects|, j requires 0 <= j < |l.objects| => ToMapObject(l.objects[j], RED))
    else []
  }

  /** The number of objects placed in the object groups among layers. */
  function GroupObjectCount(layers: seq<Layer>): nat
  {
    if |layers| == 0 then 0
    else
      var l := layers[|layers| - 1];
      GroupObjectCount(layers[..|layers| - 1]) + (if l.ObjectGroup? then |l.objects| else 0)
  }

  /** The objects of all layers, in document order. */
  function ObjectsOf(layers: seq<Layer>): seq<MapObject>
  {
    if |layers| == 0 then []
    else ObjectsOf(layers[..|layers| - 1]) + LayerObjects(layers[|layers| - 1])
  }

  /** The extraction loop of the main program. */
  method ExtractObjects(layers: seq<Layer>) returns (objs: seq<MapObject>)
    ensures objs == ObjectsOf(layers)
  {
    objs := [];
    for i := 0 to |layers|
      invariant objs == ObjectsOf(layers[..i])
    {
      var layer := layers[i];
      if layer.ObjectGroup? {
        var layerColor := RED;
        var objects := layer.objects;
        ghost var before := objs;
        for j := 0 to |objects|
          invariant objs == before + seq(j, j' requires 0 <= j' < j => ToMapObject(objects[j'], RED))
        {
          var obj := objects[j];
          var rect := Rect(obj.position.x as real, obj.position.y as real, obj.size.x as real, obj.size.y as real);
          objs := objs + [MapObject(obj.name, obj.kind, rect, layerColor)];
        }
      }
      assert layers[..i + 1][..i] == layers[..i];
    }
    assert layers[..|layers|] == layers;
  }

  /** Extraction respects document order across layers. */
  lemma {:induction false} ObjectsConcat(a: seq<Layer>, b: seq<Layer>)
    ensures ObjectsOf(a + b) == ObjectsOf(a) + ObjectsOf(b)
  {
    if |b| > 0 {
      var n := |b| - 1;
      ObjectsConcat(a, b[..n]);
      assert (a + b)[..|a + b| - 1] == a + b[..n];
      assert (a + b)[|a + b| - 1] == b[n];
      calc {
        ObjectsOf(a + b);
        ObjectsOf(a + b[..n]) + LayerObjects(b[n]);
        ObjectsOf(a) + ObjectsOf(b[..n]) + LayerObjects(b[n]);
        ObjectsOf(a) + ObjectsOf(b);
      }
    } else {
      assert a + b == a;
    }
  }

  /** Every extracted object is RED and is the copy of an object placed in
      an object group of the input. */
  lemma {:induction false} ObjectsFromGroups(layers: seq<Layer>)
    ensures forall m :: m in ObjectsOf(layers) ==>
              m.color == RED &&
              exists i, j :: 0 <= i < |layers| && layers[i].ObjectGroup? && 0 <= j < |layers[i].objects| &&
                             m == ToMapObject(layers[i].objects[j], RED)
  {
    if |layers| > 0 {
      var n := |layers| - 1;
      var front := layers[..n];
      ObjectsFromGroups(front);
      forall m | m in ObjectsOf(layers)
        ensures m.color == RED &&
                exists i, j :: 0 <= i < |layers| && layers[i].ObjectGroup? && 0 <= j < |layers[i].objects| &&
                               m == ToMapObject(layers[i].objects[j], RED)
      {
        if m in ObjectsOf(front) {
          var i, j :| 0 <= i < |front| && front[i].ObjectGroup? && 0 <= j < |front[i].objects| &&
                      m == ToMapObject(front[i].objects[j], RED);
          assert layers[i] == front[i];
        } else {
          var j :| 0 <= j < |LayerObjects(layers[n])| && m == LayerObjects(layers[n])[j];
          assert layers[n].ObjectGroup?;
        }
      }
    }
  }

  /** The layer offset and parallax factor of an object group do not move
      its objects. */
  lemma GroupPlacementIgnored(before: seq<Layer>, after: seq<Layer>, name: string, objects: seq<Object>,
                              offset: Vec2f, parallax: Vec2f, offset': Vec2f, parallax': Vec2f)
    ensures ObjectsOf(before + [ObjectGroup(offset, parallax, name, objects)] + after)
         == ObjectsOf(before + [ObjectGroup(offset', parallax', name, objects)] + after)
  {
    var l := ObjectGroup(offset, parallax, name, objects);
    var l' := ObjectGroup(offset', parallax', name, objects);
    ObjectsConcat(before + [l'], after);
    ObjectsConcat(before + [l], after);
    ObjectsConcat(before, [l']);
    ObjectsConcat(before, [l]);
    assert ObjectsOf([l']) == LayerObjects(l') by { assert [l'][..0] == []; }
    assert ObjectsOf([l]) == LayerObjects(l) by { assert [l][..0] == []; }
  }

  /** One extracted object per object of every object group: none is
      dropped and none is added. */
  lemma {:induction false} ObjectCount(layers: seq<Layer>)
    ensures |ObjectsOf(layers)| == GroupObjectCount(layers)
  {
    if |layers| > 0 {
      ObjectCount(layers[..|layers| - 1]);
    }
  }

  /** Object j of the object group at index i is extracted, right after the
      objects of the groups before it: a RED MapObject with the object's
      name and type and its placed rectangle (position, then size). */
  lemma {:induction false} ObjectsCoverGroups(layers: seq<Layer>, i: int, j: int)
    requires 0 <= i < |layers| && layers[i].ObjectGroup? && 0 <= j < |layers[i].objects|
    ensures GroupObjectCount(layers[..i]) + j < |ObjectsOf(layers)|
    ensures var o := layers[i].objects[j];
            ObjectsOf(layers)[GroupObjectCount(layers[..i]) + j]
            == MapObject(o.name, o.kind, Rect(o.position.x as real, o.position.y as real, o.size.x as real, o.size.y as real), RED)
    ensures ToMapObject(layers[i].objects[j], RED) in ObjectsOf(layers)
  {
    var n := |layers| - 1;
    var front := layers[..n];
    ObjectCount(front);
    assert ObjectsOf(layers) == ObjectsOf(front) + LayerObjects(layers[n]);
    if i < n {
      ObjectsCoverGroups(front, i, j);
      assert front[..i] == layers[..i];
      assert front[i] == layers[i];
    } else {
      assert layers[..i] == front;
    }
  }
}
