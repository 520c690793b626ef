/**
 * The aspect-correction rule of TexQuad::Update: which scale vector the
 * quad's model matrix is built from. Floats are modelled as reals; the
 * matrix composition and the uniform write are not modelled.
 */
module Placement {

  datatype Vec2 = Vec2(x: real, y: real)
  datatype Vec3 = Vec3(x: real, y: real, z: real)

  /** img_width / img_height as a ratio. */
  function ImageAspect(width: nat, height: nat): (a: real)
    requires height >= 1
    ensures a * height as real == width as real
    ensures width >= 1 ==> a > 0.0
  {
    width as real / height as real
  }

  /**
   * The scale the quad is drawn with. In arrange mode the base scale is
   * used as is. Otherwise a landscape window (aspect above 1) widens x by
   * the image aspect and any other window (including exactly 1) shrinks y
   * by it: one axis keeps its base value, and the quad's x : y ratio becomes
   * the base ratio times the image aspect.
   */
  function QuadScale(arrange: bool, windowAspect: real, base: Vec2, imageAspect: real): (r: Vec2)
    requires arrange || windowAspect > 1.0 || imageAspect != 0.0
    ensures arrange ==> r == base
    ensures !arrange && windowAspect > 1.0 ==> r.y == base.y
    ensures !arrange && windowAspect <= 1.0 ==> r.x == base.x
    ensures !arrange ==> r.x * base.y == imageAspect * base.x * r.y
  {
    if arrange then base
    else if windowAspect > 1.0 then Vec2(base.x * imageAspect, base.y)
    else Vec2(base.x, base.y / imageAspect)
  }

  /**
   * With a 2:1 image: a 1.5 window doubles x and keeps y; a 0.5 window keeps
   * x and halves y; a square window counts as portrait; arrange mode keeps both.
   */
  lemma QuadScaleExamples(base: Vec2)
    ensures QuadScale(false, 1.5, base, ImageAspect(2, 1)) == Vec2(base.x * 2.0, base.y)
    ensures QuadScale(false, 0.5, base, ImageAspect(2, 1)) == Vec2(base.x, base.y / 2.0)
    ensures QuadScale(false, 1.0, base, ImageAspect(2, 1)) == Vec2(base.x, base.y / 2.0)
    ensures QuadScale(true, 1.5, base, ImageAspect(2, 1)) == base
  {
  }
}
