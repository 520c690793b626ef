/**
 * TexQuad: one image shown as a textured quad. It owns one texture name in
 * a shared GL context, caches the decoded pixels, optionally builds six
 * colour-coded mip buffers at construction, and uploads either an
 * automatically or a manually built mip chain on Load.
 */
module Texture {
  import opened MipLevels
  import opened MipImages
  import opened GlState
  import opened UploadStrategy
  import opened Placement
  import opened Util

  /** mip_data after construction: six buffers, painted only when both flags are on. */
  function InitialMips(generate: bool, dim: nat): (m: seq<seq<bv8>>)
    ensures |m| == 6
    ensures forall i :: 0 <= i < 6 ==> m[i] == if generate then MipImage(dim, i) else []
  {
    if generate then seq(6, i requires 0 <= i < 6 => MipImage(dim, i)) else seq(6, i => [])
  }

  /**
   * Every synthetic buffer Load can read was generated: Load reads buffers
   * only when mipmapping and manual mipmapping are both on, which is exactly
   * when the constructor painted all six.
   */
  lemma LoadReadsGeneratedBuffers(mips: seq<seq<bv8>>, tex: nat, width: nat, height: nat,
                                  mipmap: bool, manual: bool, dim: nat)
    requires width >= 1 && height >= 1
    requires mips == InitialMips(mipmap && manual, dim)
    ensures forall c :: c in LoadCalls(tex, width, height, mipmap, manual) && c.SubImage? && c.source.MipBuffer? ==>
      c.source.index < |mips| && mips[c.source.index] == MipImage(dim, c.source.index)
  {
    LoadReadsBuffersOnlyWhenManual(tex, width, height, mipmap, manual);
  }

  /** Whether Load gets past its early return: pixels were cached, or the decoder succeeded with some. */
  predicate LoadProceeds(cached: seq<bv8>, decoded: LodepngOutput) {
    cached != [] || (DecodePngImage(decoded) && decoded.pixels != [])
  }

  /** `std::copy` of the four colour bytes to the iterator: the bytes at `at` become the colour. */
  method WritePixel(buffer: array<bv8>, at: nat, color: seq<bv8>)
    requires |color| == 4 && at % 4 == 0 && at + 4 <= buffer.Length
    modifies buffer
    ensures forall j :: 0 <= j < buffer.Length ==>
      buffer[j] == if at <= j < at + 4 then color[j % 4] else old(buffer[j])
  {
    assert (at + 1) % 4 == 1 && (at + 2) % 4 == 2 && (at + 3) % 4 == 3;
    buffer[at], buffer[at + 1], buffer[at + 2], buffer[at + 3] := color[0], color[1], color[2], color[3];
  }

  /**
   * One buffer of GenerateManualMips: resize to dim * dim RGBA pixels (old
   * bytes kept, new bytes zero), then write the colour pixel by pixel from
   * the first. The pixel counter starts at 1, so the last pixel keeps the
   * bytes the resize left there.
   */
  method PaintBuffer(prior: seq<bv8>, dim: nat, color: seq<bv8>) returns (bytes: seq<bv8>)
    requires |color| == 4
    ensures bytes == Painted(prior, dim, color)
  {
    var pixels := dim * dim;
    var size := pixels * 4;
    var buffer := new bv8[size](j requires 0 <= j < size => if j < |prior| then prior[j] else 0);
    var k := 1;
    var at := 0;  // byte offset of the iterator
    while k < pixels
      modifies buffer
      invariant 1 <= k && (pixels >= 1 ==> k <= pixels)
      invariant at == 4 * (k - 1) && at <= size
      invariant forall j :: 0 <= j < at ==> buffer[j] == color[j % 4]
      invariant forall j :: at <= j < size ==> buffer[j] == if j < |prior| then prior[j] else 0
    {
      WritePixel(buffer, at, color);
      at := at + 4;
      k := k + 1;
    }
    assert pixels >= 1 ==> at == size - 4;
    bytes := buffer[..];
    ghost var expected := Painted(prior, dim, color);
    assert |expected| == size;
    forall j | 0 <= j < size
      ensures bytes[j] == expected[j]
    {
    }
  }

  class TexQuad {
    const imgPath: string
    const windowAspect: real
    const position: Vec3
    const scale: Vec2
    const doMipmap: bool
    const doManualMipmap: bool
    const doArrange: bool
    // side of the square synthetic mip buffers (4096 in the source)
    const mipDim: nat
    // the GL context the texture lives in, shared with everything else that draws
    const gl: Gl

    var mipData: seq<seq<bv8>>
    var imageData: seq<bv8>
    var imgWidth: nat
    var imgHeight: nat
    var texName: nat
    // how many times the decoder has been called
    var decodeCount: nat

    ghost predicate Valid()
      reads this, gl
    {
      && gl.Valid()
      && mipData == InitialMips(doMipmap && doManualMipmap, mipDim)
      && (imageData != [] ==> imgWidth >= 1 && imgHeight >= 1)
    }

    /** An image-backed quad. */
    constructor (path: string, winAspect: real, pos: Vec3, sc: Vec2, mipmap: bool, manual: bool, arrange: bool,
                 dim: nat, context: Gl, initialName: nat)
      requires context.Valid()
      ensures Valid()
      ensures imgPath == path && windowAspect == winAspect && position == pos && scale == sc
      ensures doMipmap == mipmap && doManualMipmap == manual && doArrange == arrange
      ensures mipDim == dim && gl == context
      ensures imageData == [] && texName == initialName && decodeCount == 0
    {
      imgPath, windowAspect, position, scale := path, winAspect, pos, sc;
      doMipmap, doManualMipmap, doArrange := mipmap, manual, arrange;
      mipDim, gl := dim, context;
      mipData := seq(6, i => []);
      imageData, imgWidth, imgHeight := [], 0, 0;
      texName, decodeCount := initialName, 0;
      new;
      if doMipmap && doManualMipmap {
        GenerateManualMips();
      }
    }

    /** A quad without an image path (the path stays empty). */
    constructor Placeholder(winAspect: real, pos: Vec3, sc: Vec2, mipmap: bool, manual: bool, arrange: bool,
                            dim: nat, context: Gl, initialName: nat)
      requires context.Valid()
      ensures Valid()
      ensures imgPath == "" && windowAspect == winAspect && position == pos && scale == sc
      ensures doMipmap == mipmap && doManualMipmap == manual && doArrange == arrange
      ensures mipDim == dim && gl == context
      ensures imageData == [] && texName == initialName && decodeCount == 0
    {
      imgPath, windowAspect, position, scale := "", winAspect, pos, sc;
      doMipmap, doManualMipmap, doArrange := mipmap, manual, arrange;
      mipDim, gl := dim, context;
      mipData := seq(6, i => []);
      imageData, imgWidth, imgHeight := [], 0, 0;
      texName, decodeCount := initialName, 0;
      new;
      if doMipmap && doManualMipmap {
        GenerateManualMips();
      }
    }

    /**
     * Resizes each of the six buffers to mipDim * mipDim RGBA pixels and
     * paints it with its marker colour (see PaintBuffer).
     */
    method GenerateManualMips()
      requires |mipData| == 6
      modifies this`mipData
      ensures |mipData| == 6
      ensures forall i :: 0 <= i < 6 ==> mipData[i] == Painted(old(mipData[i]), mipDim, FillColors[i])
    {
      var i := 0;
      while i < 6
        invariant 0 <= i <= 6 && |mipData| == 6
        invariant forall j :: 0 <= j < i ==> mipData[j] == Painted(old(mipData[j]), mipDim, FillColors[j])
        invariant forall j :: i <= j < 6 ==> mipData[j] == old(mipData[j])
      {
        var painted := PaintBuffer(mipData[i], mipDim, FillColors[i]);
        mipData := mipData[i := painted];
        i := i + 1;
      }
    }

    /**
     * The effect of Load: decode (and count it) only when nothing is cached;
     * stop with GL untouched when there are no pixels; otherwise hold a fresh
     * live name, have issued exactly LoadCalls on it, and leave nothing bound.
     */
    twostate predicate Loaded(decoded: LodepngOutput)
      reads this, gl
    {
      && decodeCount == old(decodeCount) + (if old(imageData) == [] then 1 else 0)
      && (old(imageData) != [] ==>
            imageData == old(imageData) && imgWidth == old(imgWidth) && imgHeight == old(imgHeight))
      && (old(imageData) == [] ==>
            imageData == decoded.pixels && imgWidth == decoded.width && imgHeight == decoded.height)
      && (!LoadProceeds(old(imageData), decoded) ==>
            texName == old(texName) && gl.live == old(gl.live) && gl.bound == old(gl.bound) && gl.log == old(gl.log))
      && (LoadProceeds(old(imageData), decoded) ==>
            && imageData != [] && imgWidth >= 1 && imgHeight >= 1
            && texName != 0 && texName !in old(gl.live)
            && gl.live == old(gl.live) + {texName}
            && gl.bound == 0
            && gl.log == old(gl.log) + LoadCalls(texName, imgWidth, imgHeight, doMipmap, doManualMipmap))
    }

    /**
     * Decodes only when no pixels are cached; stops before touching GL when
     * decoding fails or yields nothing; otherwise generates a new texture name
     * (the previous one is not deleted), sets it up, uploads level 0 and the
     * mip chain, and leaves nothing bound.
     */
    method Load(decoded: LodepngOutput)
      requires Valid()
      requires WellSized(decoded)
      modifies this, gl
      ensures Valid()
      ensures Loaded(decoded)
    {
      var result := true;
      if |imageData| == 0 {
        result := DecodePngImage(decoded);
        imageData, imgWidth, imgHeight := decoded.pixels, decoded.width, decoded.height;
        decodeCount := decodeCount + 1;
      }
      if !result || |imageData| == 0 {
        return;
      }

      texName := gl.GenTexture();
      gl.BindTexture(texName);
      UploadLevels();
      gl.BindTexture(0);
    }

    /**
     * Everything Load does with its freshly bound texture: the filters, the
     * immutable storage, level 0 and then the mip chain.
     */
    method UploadLevels()
      requires imgWidth >= 1 && imgHeight >= 1 && gl.bound == texName
      modifies gl`log
      ensures gl.log == old(gl.log) + LoadCalls(texName, imgWidth, imgHeight, doMipmap, doManualMipmap)
    {
      ghost var before := gl.log;
      var numMips: int := 1;
      if doMipmap {
        gl.Record(SetMinFilter(texName, true));
        numMips := FloorLog2(Min(imgWidth, imgHeight));
        gl.Record(SetMaxLevel(texName, numMips - 1));
      } else {
        gl.Record(SetMinFilter(texName, false));
      }
      gl.Record(Storage(texName, numMips, imgWidth, imgHeight));
      gl.Record(SubImage(texName, 0, imgWidth, imgHeight, ImagePixels));
      ghost var head := gl.log[|before|..];
      assert gl.log == before + head;
      if doMipmap {
        if doManualMipmap {
          UploadManualLevels();
        } else {
          gl.Record(AutoMipmap(texName));
        }
      }
      assert gl.log == before + LoadCalls(texName, imgWidth, imgHeight, doMipmap, doManualMipmap);
    }

    /**
     * The manual loop of Load: halve w and h (truncating) from half the
     * image size and upload level l = 1, 2, ... from buffer l mod 6 while both
     * exceed 1.
     */
    method UploadManualLevels()
      requires imgWidth >= 1 && imgHeight >= 1 && gl.bound == texName
      modifies gl`log
      ensures gl.log == old(gl.log) + ManualChain(texName, imgWidth, imgHeight)
    {
      ghost var chain := ManualChain(texName, imgWidth, imgHeight);
      var w := imgWidth / 2;
      var h := imgHeight / 2;
      var l := 0;
      assert Pow2(1) == 2;
      while w > 1 && h > 1
        invariant 0 <= l <= |chain|
        invariant w == LevelSize(imgWidth, l + 1) && h == LevelSize(imgHeight, l + 1)
        invariant gl.log == old(gl.log) + chain[..l]
      {
        ContinueIff(imgWidth, imgHeight, l);
        l := l + 1;
        gl.Record(SubImage(texName, l, w, h, MipBuffer(l % 6)));
        assert chain[..l] == chain[..l - 1] + [chain[l - 1]];
        HalveLevel(imgWidth, l);
        HalveLevel(imgHeight, l);
        w := w / 2;
        h := h / 2;
      }
      ContinueIff(imgWidth, imgHeight, l);
      assert chain[..l] == chain;
    }

    /** Setup just loads. */
    method Setup(decoded: LodepngOutput)
      requires Valid()
      requires WellSized(decoded)
      modifies this, gl
      ensures Valid()
      ensures Loaded(decoded)
    {
      Load(decoded);
    }

    /**
     * The effect of glDeleteTextures on this quad's name: it is no longer
     * live, and the binding reverts to 0 if it was the bound texture.
     */
    twostate predicate Unloaded()
      reads this, gl
    {
      && gl.live == old(gl.live) - {texName}
      && gl.bound == if texName in old(gl.live) && old(gl.bound) == texName then 0 else old(gl.bound)
    }

    /**
     * Deletes the texture name. The name itself and the cached pixels are
     * kept, so a second Unload deletes an already free name, which GL ignores.
     */
    method Unload()
      requires Valid()
      modifies gl`live, gl`bound
      ensures Valid()
      ensures Unloaded()
    {
      gl.DeleteTexture(texName);
    }

    /** The destructor: always Unload. */
    method Destroy()
      requires Valid()
      modifies gl`live, gl`bound
      ensures Valid()
      ensures Unloaded()
    {
      Unload();
    }

    /** Binds this quad's texture name on unit 0. */
    method Bind()
      modifies gl`bound
      ensures gl.bound == texName
    {
      gl.BindTexture(texName);
    }

    /** Binds texture 0. */
    method Unbind()
      modifies gl`bound
      ensures gl.bound == 0
    {
      gl.BindTexture(0);
    }

    /**
     * The scale vector Update builds the model matrix from. Arrange mode
     * uses the base scale and never looks at the image aspect, so it also
     * covers a quad whose image failed to load.
     */
    method Update() returns (s: Vec2)
      requires doArrange || (imgWidth >= 1 && imgHeight >= 1)
      ensures doArrange ==> s == scale
      ensures !doArrange && windowAspect > 1.0 ==> s == Vec2(scale.x * imgWidth as real / imgHeight as real, scale.y)
      ensures !doArrange && windowAspect <= 1.0 ==> s == Vec2(scale.x, scale.y * imgHeight as real / imgWidth as real)
    {
      if doArrange {
        s := scale;
        return;
      }
      var imgAspect := ImageAspect(imgWidth, imgHeight);
      s := QuadScale(doArrange, windowAspect, scale, imgAspect);
    }
  }

  // -----------------------------------------------------------------------
  // Consequences for callers

  /** A second Load with cached pixels does not decode again. */
  method LoadTwiceDecodesOnce(q: TexQuad, first: LodepngOutput, second: LodepngOutput)
    requires q.Valid() && q.imageData == [] && q.decodeCount == 0
    requires WellSized(first) && WellSized(second)
    requires DecodePngImage(first) && first.pixels != []
    modifies q, q.gl
    ensures q.decodeCount == 1
    ensures q.imageData == first.pixels
  {
    q.Load(first);
    q.Load(second);
  }

  /** Each successful Load makes a new name and the previous one stays live: it leaks. */
  method ReloadKeepsPreviousName(q: TexQuad, decoded: LodepngOutput) returns (firstName: nat)
    requires q.Valid() && q.imageData != []
    requires WellSized(decoded)
    modifies q, q.gl
    ensures firstName in q.gl.live && q.texName in q.gl.live && firstName != q.texName
  {
    q.Load(decoded);
    firstName := q.texName;
    q.Load(decoded);
  }

  /** Unload after Unload leaves the live names as the first left them. */
  method UnloadTwiceIsHarmless(q: TexQuad)
    requires q.Valid()
    modifies q.gl`live, q.gl`bound
    ensures q.gl.live == old(q.gl.live) - {q.texName}
  {
    q.Unload();
    ghost var afterFirst := q.gl.live;
    q.Unload();
    assert q.gl.live == afterFirst;
  }
}
