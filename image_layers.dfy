/** The load-time collection of image layers (parallax backgrounds): one
    record per ImageLayer, in document order, holding its texture, offset,
    parallax factor and repeat flag. */
module ImageLayers {
  import opened TiledMap
  import opened Paths

  datatype ImageLayerInfo = ImageLayerInfo(texture: Texture, offset: Vec2f, parallax: Vec2f, repeatX: bool)

  /** The record kept for one image layer: the texture comes from the
      layer's path with a leading "../" removed, and no directory prefix is
      added; imageWidth stands for the image loader. */
  function InfoOf(l: Layer, imageWidth: string -> int): ImageLayerInfo
    requires l.ImageLayer?
  {
    var path := StripParentDir(l.image);
    ImageLayerInfo(Texture(path, imageWidth(path)), l.offset, l.parallax, l.repeatX)
  }

  /** The records of all image layers among layers, in document order. */
  function ImageLayersOf(layers: seq<Layer>, imageWidth: string -> int): seq<ImageLayerInfo>
  {
    if |layers| == 0 then []
    else
      var l := layers[|layers| - 1];
      ImageLayersOf(layers[..|layers| - 1], imageWidth) + (if l.ImageLayer? then [InfoOf(l, imageWidth)] else [])
  }

  /** The loading loop of the main program. */
  method CollectImageLayers(layers: seq<Layer>, imageWidth: string -> int) returns (infos: seq<ImageLayerInfo>)
    ensures infos == ImageLayersOf(layers, imageWidth)
  {
    infos := [];
    for i := 0 to |layers|
      invariant infos == ImageLayersOf(layers[..i], imageWidth)
    {
      var layer := layers[i];
      if layer.ImageLayer? {
        var imagePath := layer.image;
        if Substr(imagePath, 0, 3) == "../" {
          imagePath := Substr(imagePath, 3, |imagePath|);
        }
        var texture := Texture(imagePath, imageWidth(imagePath));
        infos := infos + [ImageLayerInfo(texture, layer.offset, layer.parallax, layer.repeatX)];
      }
      assert layers[..i + 1][..i] == layers[..i];
    }
    assert layers[..|layers|] == layers;
  }

  /** Collection respects document order: the records of a + b are those
      of a followed by those of b. */
  lemma {:induction false} ImageLayersConcat(a: seq<Layer>, b: seq<Layer>, imageWidth: string -> int)
    ensures ImageLayersOf(a + b, imageWidth) == ImageLayersOf(a, imageWidth) + ImageLayersOf(b, imageWidth)
  {
    if |b| > 0 {
      var n := |b| - 1;
      ImageLayersConcat(a, b[..n], imageWidth);
      assert (a + b)[..|a + b| - 1] == a + b[..n];
      assert (a + b)[|a + b| - 1] == b[n];
      var tail := if b[n].ImageLayer? then [InfoOf(b[n], imageWidth)] else [];
      calc {
        ImageLayersOf(a + b, imageWidth);
        ImageLayersOf(a + b[..n], imageWidth) + tail;
        ImageLayersOf(a, imageWidth) + ImageLayersOf(b[..n], imageWidth) + tail;
        ImageLayersOf(a, imageWidth) + ImageLayersOf(b, imageWidth);
      }
    } else {
      assert a + b == a;
    }
  }

  /** Number of image layers among layers. */
  function ImageLayerCount(layers: seq<Layer>): nat
  {
    if |layers| == 0 then 0
    else ImageLayerCount(layers[..|layers| - 1]) + (if layers[|layers| - 1].ImageLayer? then 1 else 0)
  }

  /** One record per image layer, every record from an image layer of the
      input, and none from a layer of another kind. */
  lemma {:induction false} ImageLayersCoverImageLayers(layers: seq<Layer>, imageWidth: string -> int)
    ensures |ImageLayersOf(layers, imageWidth)| == ImageLayerCount(layers)
    ensures forall info :: info in ImageLayersOf(layers, imageWidth) <==>
              exists i :: 0 <= i < |layers| && layers[i].ImageLayer? && info == InfoOf(layers[i], imageWidth)
    ensures forall i :: 0 <= i < |layers| && layers[i].ImageLayer? ==> InfoOf(layers[i], imageWidth) in ImageLayersOf(layers, imageWidth)
  {
    if |layers| > 0 {
      var n := |layers| - 1;
      var front := layers[..n];
      ImageLayersCoverImageLayers(front, imageWidth);
      forall info
        ensures info in ImageLayersOf(layers, imageWidth) <==>
                exists i :: 0 <= i < |layers| && layers[i].ImageLayer? && info == InfoOf(layers[i], imageWidth)
      {
        if info in ImageLayersOf(front, imageWidth) {
          var i :| 0 <= i < |front| && front[i].ImageLayer? && info == InfoOf(front[i], imageWidth);
          assert layers[i] == front[i];
        }
        if exists i :: 0 <= i < |layers| && layers[i].ImageLayer? && info == InfoOf(layers[i], imageWidth) {
          var i :| 0 <= i < |layers| && layers[i].ImageLayer? && info == InfoOf(layers[i], imageWidth);
          if i < n {
            assert front[i] == layers[i];
          }
        }
      }
      forall i | 0 <= i < |layers| && layers[i].ImageLayer?
        ensures InfoOf(layers[i], imageWidth) in ImageLayersOf(layers, imageWidth)
      {
        if i < n {
          assert front[i] == layers[i];
        }
      }
    }
  }

  /** The record of the image layer at index i sits at its rank among the
      image layers: its texture is loaded from the layer's image path with a
      leading "../" removed and no prefix added, and it keeps the layer's
      offset, parallax factor and repeat flag. */
  lemma {:induction false} ImageLayerRecordAt(layers: seq<Layer>, i: int, imageWidth: string -> int)
    requires 0 <= i < |layers| && layers[i].ImageLayer?
    ensures ImageLayerCount(layers[..i]) < |ImageLayersOf(layers, imageWidth)|
    ensures var info := ImageLayersOf(layers, imageWidth)[ImageLayerCount(layers[..i])];
            var path := StripParentDir(layers[i].image);
            info.texture == Texture(path, imageWidth(path)) &&
            info.offset == layers[i].offset && info.parallax == layers[i].parallax && info.repeatX == layers[i].repeatX
  {
    var n := |layers| - 1;
    var front := layers[..n];
    ImageLayersCoverImageLayers(front, imageWidth);
    assert ImageLayersOf(layers, imageWidth)
        == ImageLayersOf(front, imageWidth) + (if layers[n].ImageLayer? then [InfoOf(layers[n], imageWidth)] else []);
    if i < n {
      ImageLayerRecordAt(front, i, imageWidth);
      assert front[..i] == layers[..i];
      assert front[i] == layers[i];
    } else {
      assert layers[..i] == front;
    }
  }
}
