/**
 * The synthetic, colour-coded mip images built by
 * TexQuad::GenerateManualMips: six RGBA byte buffers of dim x dim pixels,
 * buffer i painted with marker colour i.
 */
module MipImages {

  /** The marker colours of the six buffers, as RGBA bytes. */
  const FillColors: seq<seq<bv8>> := [
    [255, 0, 0, 255],    // red
    [255, 127, 0, 255],  // orange
    [255, 255, 0, 255],  // yellow
    [0, 255, 0, 255],    // green
    [0, 0, 255, 255],    // blue
    [127, 0, 255, 255]   // violet
  ]

  /**
   * A buffer after one pass of GenerateManualMips: resized to dim * dim
   * pixels (bytes beyond the old size become 0, old bytes are kept) and then
   * painted pixel by pixel from the start. The painting loop counts k from 1
   * to dim * dim - 1, so it paints every pixel but the last one.
   */
  function Painted(prior: seq<bv8>, dim: nat, color: seq<bv8>): (bytes: seq<bv8>)
    requires |color| == 4
  {
    var size := dim * dim * 4;
    seq(size, j requires 0 <= j < size =>
      if j < size - 4 then color[j % 4]
      else if j < |prior| then prior[j]
      else 0)
  }

  /** Mip buffer `i` as the constructor leaves it: painted over an empty buffer. */
  function MipImage(dim: nat, i: nat): (image: seq<bv8>)
    requires i < 6
  {
    Painted([], dim, FillColors[i])
  }

  /** The four bytes of pixel `p`. */
  function Pixel(buffer: seq<bv8>, p: nat): (rgba: seq<bv8>)
    requires 4 * p + 4 <= |buffer|
  {
    buffer[4 * p .. 4 * p + 4]
  }

  /**
   * Buffer i holds dim * dim RGBA pixels; every pixel but the last is
   * colour i, and the last pixel is the zero that resize wrote.
   */
  lemma MipImagePixels(dim: nat, i: nat)
    requires dim >= 1 && i < 6
    ensures |MipImage(dim, i)| == dim * dim * 4
    ensures forall p: nat :: p < dim * dim - 1 ==> Pixel(MipImage(dim, i), p) == FillColors[i]
    ensures Pixel(MipImage(dim, i), dim * dim - 1) == [0, 0, 0, 0]
  {
    var image := MipImage(dim, i);
    var color := FillColors[i];
    var pixels := dim * dim;
    assert |image| == pixels * 4;
    forall p: nat | p < pixels - 1
      ensures Pixel(image, p) == color
    {
      forall t | 0 <= t < 4
        ensures Pixel(image, p)[t] == color[t]
      {
        assert (4 * p + t) % 4 == t;
        assert 4 * p + t < pixels * 4 - 4;
      }
    }
    var last := pixels - 1;
    forall t | 0 <= t < 4
      ensures Pixel(image, last)[t] == 0
    {
      assert 4 * last + t >= pixels * 4 - 4;
    }
  }
}
