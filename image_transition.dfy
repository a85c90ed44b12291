/**
 * The image transition sketch: three loaded textures, a pair (from, to) the
 * shader blends between, and `setImage`, which shifts the pair by one and
 * brings in the texture for the hovered link.
 */
module ImageTransition {
  import opened Vectors
  import opened Optional
  import CoverFit

  /** A loaded texture: an identity and the pixel size of its image. */
  datatype Texture = Texture(id: nat, width: real, height: real)

  predicate Loaded(t: Texture) { t.width > 0.0 && t.height > 0.0 }

  /** Cover fit of a texture on a container of the given size. */
  function GetCoverAspectRatio(t: Texture, containerWidth: real, containerHeight: real): (r: Vec2)
    requires Loaded(t) && containerWidth > 0.0 && containerHeight > 0.0
    ensures (r.x == 1.0 && 0.0 < r.y <= 1.0) || (r.y == 1.0 && 0.0 < r.x <= 1.0)
    ensures r.x == 1.0 <==> t.width / t.height <= containerWidth / containerHeight
  {
    CoverFit.CoverAspectRatio(CoverFit.Aspect(t.width, t.height), CoverFit.Aspect(containerWidth, containerHeight))
  }

  /**
   * The sketch after its assets loaded.  `uniforms` is unset until `init`
   * ran; a texture field the sketch looked up under a name it does not have
   * is `None` (`undefined`), and computing its cover fit throws, which the
   * methods report as `ok == false` after the assignments made before the
   * throw.
   */
  class ImageTransition1Sketch {
    const t1: Texture
    const t2: Texture
    const t3: Texture
    var containerWidth: real
    var containerHeight: real
    var hasUniforms: bool
    var fromT: Option<Texture>
    var toT: Option<Texture>
    var uT1: Option<Texture>
    var uT2: Option<Texture>
    var uT1Aspect: Vec2
    var uT2Aspect: Vec2

    ghost predicate Valid()
      reads this
    {
      Loaded(t1) && Loaded(t2) && Loaded(t3) && containerWidth > 0.0 && containerHeight > 0.0 &&
      (fromT.Some? ==> Loaded(fromT.value)) && (toT.Some? ==> Loaded(toT.value)) &&
      (hasUniforms ==> uT1 == fromT && uT2 == toT)
    }

    /** The texture field `t<index + 1>`: only 0, 1 and 2 name a loaded texture. */
    function TextureAt(index: int): (r: Option<Texture>)
      reads this
      ensures r.Some? <==> 0 <= index < 3
      ensures r.Some? ==> r.value == [t1, t2, t3][index]
    {
      if index == 0 then Some(t1) else if index == 1 then Some(t2) else if index == 2 then Some(t3) else None
    }

    constructor (t1: Texture, t2: Texture, t3: Texture, containerWidth: real, containerHeight: real)
      requires Loaded(t1) && Loaded(t2) && Loaded(t3) && containerWidth > 0.0 && containerHeight > 0.0
      ensures Valid() && !hasUniforms && fromT == None && toT == None
      ensures this.t1 == t1 && this.t2 == t2 && this.t3 == t3
      ensures this.containerWidth == containerWidth && this.containerHeight == containerHeight
    {
      this.t1, this.t2, this.t3 := t1, t2, t3;
      this.containerWidth, this.containerHeight := containerWidth, containerHeight;
      hasUniforms := false;
      fromT, toT, uT1, uT2 := None, None, None, None;
      uT1Aspect, uT2Aspect := Zero2, Zero2;
    }

    /** `init`: blend from the first texture to the second. */
    method Init()
      requires Valid()
      modifies this`hasUniforms, this`fromT, this`toT, this`uT1, this`uT2, this`uT1Aspect, this`uT2Aspect
      ensures Valid() && hasUniforms
      ensures fromT == Some(t1) && toT == Some(t2)
      ensures uT1Aspect == GetCoverAspectRatio(t1, containerWidth, containerHeight)
      ensures uT2Aspect == GetCoverAspectRatio(t2, containerWidth, containerHeight)
    {
      fromT, toT := Some(t1), Some(t2);
      uT1, uT2 := fromT, toT;
      uT1Aspect := GetCoverAspectRatio(t1, containerWidth, containerHeight);
      uT2Aspect := GetCoverAspectRatio(t2, containerWidth, containerHeight);
      hasUniforms := true;
    }

    /**
     * `updateSize`: the cover fits follow the new container size; like
     * `setImage` it throws on an undefined texture.
     */
    method UpdateSize(width: real, height: real) returns (ok: bool)
      requires Valid() && hasUniforms && width > 0.0 && height > 0.0
      modifies this`containerWidth, this`containerHeight, this`uT1Aspect, this`uT2Aspect
      ensures Valid() && containerWidth == width && containerHeight == height
      ensures ok <==> fromT.Some? && toT.Some?
      ensures fromT.Some? ==> uT1Aspect == GetCoverAspectRatio(fromT.value, width, height)
      ensures fromT.None? ==> uT1Aspect == old(uT1Aspect)
      ensures ok ==> uT2Aspect == GetCoverAspectRatio(toT.value, width, height)
      ensures !ok ==> uT2Aspect == old(uT2Aspect)
    {
      containerWidth, containerHeight := width, height;
      if fromT.None? { return false; }
      uT1Aspect := GetCoverAspectRatio(fromT.value, width, height);
      if toT.None? { return false; }
      uT2Aspect := GetCoverAspectRatio(toT.value, width, height);
      ok := true;
    }

    /**
     * `setImage`: nothing before `init`; afterwards the old target becomes the
     * source, texture `index` the target, and both cover fits are recomputed.
     * An index outside 0..2 leaves the target undefined and the cover fit of
     * it throws.
     */
    method SetImage(index: int) returns (ok: bool)
      requires Valid()
      modifies this`fromT, this`toT, this`uT1, this`uT2, this`uT1Aspect, this`uT2Aspect
      ensures Valid()
      ensures !hasUniforms ==> ok && unchanged(this)
      ensures hasUniforms ==> fromT == old(toT) && toT == TextureAt(index)
      ensures ok <==> (!hasUniforms || (fromT.Some? && toT.Some?))
      ensures hasUniforms && fromT.Some? ==> uT1Aspect == GetCoverAspectRatio(fromT.value, containerWidth, containerHeight)
      ensures hasUniforms && fromT.None? ==> uT1Aspect == old(uT1Aspect)
      ensures ok && hasUniforms ==> uT2Aspect == GetCoverAspectRatio(toT.value, containerWidth, containerHeight)
      ensures !ok ==> uT2Aspect == old(uT2Aspect)
    {
      if !hasUniforms { return true; }
      fromT := toT;
      toT := TextureAt(index);
      uT1, uT2 := fromT, toT;
      if fromT.None? { return false; }
      uT1Aspect := GetCoverAspectRatio(fromT.value, containerWidth, containerHeight);
      if toT.None? { return false; }
      uT2Aspect := GetCoverAspectRatio(toT.value, containerWidth, containerHeight);
      ok := true;
    }
  }
}
