/**
 * What Load asks of GL for a freshly bound texture (the immutable-storage
 * strategy that `#define STORAGE` selects): the minification filter, the
 * maximum level, the storage for the whole pyramid, level 0 from the decoded
 * pixels, and then either the manual chain from the synthetic buffers or a
 * request for driver-generated mipmaps.
 */
module UploadStrategy {
  import opened MipLevels
  import opened GlState

  /**
   * The uploads of the manual loop in closed form: entry i uploads level
   * l = i + 1 with size (W div 2^l) x (H div 2^l) from buffer l mod 6.
   */
  function ManualChain(tex: nat, width: nat, height: nat): (chain: seq<TexCall>)
    requires width >= 1 && height >= 1
  {
    seq(ManualLevels(width, height), i requires 0 <= i =>
      SubImage(tex, i + 1, LevelSize(width, i + 1), LevelSize(height, i + 1), MipBuffer((i + 1) % 6)))
  }

  /** The calls Load makes on the texture it has just generated and bound, in order. */
  function LoadCalls(tex: nat, width: nat, height: nat, mipmap: bool, manual: bool): (calls: seq<TexCall>)
    requires width >= 1 && height >= 1
  {
    var numMips := NumMips(mipmap, width, height);
    [SetMinFilter(tex, mipmap)]
    + (if mipmap then [SetMaxLevel(tex, numMips - 1)] else [])
    + [Storage(tex, numMips, width, height), SubImage(tex, 0, width, height, ImagePixels)]
    + (if !mipmap then [] else if manual then ManualChain(tex, width, height) else [AutoMipmap(tex)])
  }

  /**
   * Every manual upload targets a level the storage allocated (1 .. numMips - 1)
   * with both sides at least 2, reads buffer level mod 6, and the chain
   * ends exactly at GL_TEXTURE_MAX_LEVEL; it is empty exactly when the smaller
   * side is below 4, and otherwise starts with level 1 from buffer 1 at half size.
   */
  lemma ManualChainShape(tex: nat, width: nat, height: nat)
    requires width >= 1 && height >= 1
    ensures var chain := ManualChain(tex, width, height);
      && (forall i :: 0 <= i < |chain| ==>
            && chain[i].SubImage? && chain[i].tex == tex
            && 1 <= chain[i].level <= NumMips(true, width, height) - 1
            && chain[i].width >= 2 && chain[i].height >= 2
            && chain[i].source == MipBuffer(chain[i].level % 6))
      && (|chain| == 0 <==> Min(width, height) < 4)
      && (|chain| > 0 ==> chain[|chain| - 1].level == MaxLevel(width, height))
      && (|chain| > 0 ==> chain[0] == SubImage(tex, 1, width / 2, height / 2, MipBuffer(1)))
  {
    var chain := ManualChain(tex, width, height);
    forall i | 0 <= i < |chain|
      ensures chain[i].width >= 2 && chain[i].height >= 2
    {
      ContinueIff(width, height, i);
    }
    Pow2AtMost(2, Min(width, height));
  }

  /** Consecutive manual levels halve each side with truncation, as `w *= 0.5` does. */
  lemma ManualChainHalves(tex: nat, width: nat, height: nat)
    requires width >= 1 && height >= 1
    ensures var chain := ManualChain(tex, width, height);
      forall i :: 0 <= i < |chain| - 1 ==>
        chain[i + 1].width == chain[i].width / 2 && chain[i + 1].height == chain[i].height / 2
  {
    var chain := ManualChain(tex, width, height);
    forall i | 0 <= i < |chain| - 1
      ensures chain[i + 1].width == chain[i].width / 2 && chain[i + 1].height == chain[i].height / 2
    {
      HalveLevel(width, i + 1);
      HalveLevel(height, i + 1);
    }
  }

  lemma LevelSizeShrinks(side: nat, a: nat, b: nat)
    requires a <= b
    ensures LevelSize(side, b) <= LevelSize(side, a)
    decreases b - a
  {
    if a < b {
      LevelSizeShrinks(side, a, b - 1);
      HalveLevel(side, b - 1);
    }
  }

  lemma MulMonotone(a: nat, b: nat, c: nat, d: nat)
    requires a <= c && b <= d
    ensures a * b <= c * d
  {
    assert a * b <= c * b;
    assert c * b <= c * d;
  }

  /**
   * Each manual upload reads width * height pixels from a synthetic buffer
   * of dim * dim pixels. All reads stay inside the buffers exactly when the
   * first one (level 1, half the image size) does.
   */
  lemma ManualReadsFitBuffers(tex: nat, width: nat, height: nat, dim: nat)
    requires width >= 1 && height >= 1
    ensures var chain := ManualChain(tex, width, height);
      (forall i :: 0 <= i < |chain| ==> chain[i].width * chain[i].height <= dim * dim)
      <==> (|chain| == 0 || (width / 2) * (height / 2) <= dim * dim)
  {
    var chain := ManualChain(tex, width, height);
    if |chain| > 0 {
      assert Pow2(1) == 2;
      assert chain[0].width == width / 2 && chain[0].height == height / 2;
      if (width / 2) * (height / 2) <= dim * dim {
        forall i | 0 <= i < |chain|
          ensures chain[i].width * chain[i].height <= dim * dim
        {
          LevelSizeShrinks(width, 1, i + 1);
          LevelSizeShrinks(height, 1, i + 1);
          MulMonotone(chain[i].width, chain[i].height, width / 2, height / 2);
        }
      }
    }
  }

  /**
   * Only the manual chain reads synthetic buffers, so Load reads them only
   * when both mipmapping and manual mipmapping are on, and always one of
   * the six.
   */
  lemma LoadReadsBuffersOnlyWhenManual(tex: nat, width: nat, height: nat, mipmap: bool, manual: bool)
    requires width >= 1 && height >= 1
    ensures forall c :: c in LoadCalls(tex, width, height, mipmap, manual) && c.SubImage? && c.source.MipBuffer? ==>
      mipmap && manual && c.source.index < 6
  {
    var chain := ManualChain(tex, width, height);
    forall c | c in chain
      ensures c.SubImage? && c.source.MipBuffer? && c.source.index < 6
    {
      var i :| 0 <= i < |chain| && chain[i] == c;
    }
  }

  lemma Log2Of256()
    ensures FloorLog2(256) == 8 && Pow2(6) == 64 && Pow2(7) == 128
  {
    assert FloorLog2(2) == 1;
    assert FloorLog2(4) == 2;
    assert FloorLog2(8) == 3;
    assert FloorLog2(16) == 4;
    assert FloorLog2(32) == 5;
    assert FloorLog2(64) == 6;
    assert FloorLog2(128) == 7;
    assert Pow2(1) == 2 && Pow2(2) == 4 && Pow2(3) == 8 && Pow2(4) == 16 && Pow2(5) == 32;
  }

  /**
   * A 512 x 256 image: 8 storage levels, GL_TEXTURE_MAX_LEVEL 7, and manual
   * levels 1 .. 7 from 256 x 128 down to 4 x 2; level 7 reuses buffer 1.
   */
  lemma Chain512By256(tex: nat)
    ensures NumMips(true, 512, 256) == 8 && MaxLevel(512, 256) == 7
    ensures var chain := ManualChain(tex, 512, 256);
      && |chain| == 7
      && chain[0] == SubImage(tex, 1, 256, 128, MipBuffer(1))
      && chain[5] == SubImage(tex, 6, 8, 4, MipBuffer(0))
      && chain[6] == SubImage(tex, 7, 4, 2, MipBuffer(1))
  {
    Log2Of256();
    assert Min(512, 256) == 256;
    assert ManualLevels(512, 256) == 7;
    assert LevelSize(512, 1) == 256 && LevelSize(256, 1) == 128;
    assert LevelSize(512, 6) == 8 && LevelSize(256, 6) == 4;
    assert LevelSize(512, 7) == 4 && LevelSize(256, 7) == 2;
  }
}
