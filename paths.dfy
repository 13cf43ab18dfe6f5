/** Normalisation of the image path of an image layer: Tiled writes it
    relative to the map file, one directory down from the working
    directory, so a single leading "../" is dropped. */
module Paths {

  /** std::string::substr(pos, count): the characters from pos on, at most
      count of them. */
  function Substr(s: string, pos: nat, count: nat): (r: string)
    requires pos <= |s|
    ensures |r| <= count && pos + |r| <= |s|
    ensures r == s[pos..pos + |r|]
    ensures |r| < count ==> pos + |r| == |s|
  {
    if count <= |s| - pos then s[pos..pos + count] else s[pos..]
  }

  /** The path starts with the parent-directory step "../". */
  predicate HasParentPrefix(p: string)
  {
    |p| >= 3 && p[..3] == "../"
  }

  /** The image-layer path fix: a leading "../" is removed once. Putting
      "../" back in front of the result of a prefixed path restores it; any
      other path is returned as it is. */
  function StripParentDir(p: string): (r: string)
    ensures HasParentPrefix(p) ==> "../" + r == p
    ensures !HasParentPrefix(p) ==> r == p
  {
    SubstrPrefixTest(p);
    if Substr(p, 0, 3) == "../" then
      assert p == p[..3] + p[3..];
      Substr(p, 3, |p|)
    else p
  }

  /** The prefix test through substr agrees with HasParentPrefix, also on
      strings shorter than three characters. */
  lemma SubstrPrefixTest(p: string)
    ensures (Substr(p, 0, 3) == "../") == HasParentPrefix(p)
  {
    var r := Substr(p, 0, 3);
    if |p| < 3 {
      assert |r| < 3;
    } else {
      assert r == p[..3];
    }
  }

  /** Exactly one "../" goes, whatever follows it (a second "../" stays). */
  lemma StripRemovesOneStep(q: string)
    ensures StripParentDir("../" + q) == q
  {
    var p := "../" + q;
    SubstrPrefixTest(p);
    assert p[..3] == "../";
    assert p[3..] == q;
  }

  /** Any other path, including one shorter than three characters, is left
      as it is. */
  lemma StripKeepsOtherPaths(p: string)
    requires !HasParentPrefix(p)
    ensures StripParentDir(p) == p
  {
    SubstrPrefixTest(p);
  }

  /** The path changes exactly when it starts with "../", and then putting
      "../" back gives the original path. */
  lemma StripChangesIffPrefixed(p: string)
    ensures StripParentDir(p) != p <==> HasParentPrefix(p)
    ensures HasParentPrefix(p) ==> "../" + StripParentDir(p) == p
  {
    SubstrPrefixTest(p);
    if HasParentPrefix(p) {
      assert StripParentDir(p) == p[3..];
      assert |StripParentDir(p)| < |p|;
      assert p == p[..3] + p[3..];
    }
  }
}
