/**
 * Mip-chain arithmetic of TexQuad::Load: how many levels the immutable
 * storage gets, and which levels the manual loop uploads with which sizes.
 *
 * The loop in Load halves `w` and `h` with integer truncation; here the
 * uploads are described in closed form (level l has size W div 2^l by
 * H div 2^l) and the lemmas connect the loop's stopping rule to that form.
 */
module MipLevels {

  /** 2^k. */
  function Pow2(k: nat): (p: nat)
    ensures p >= 1
  {
    if k == 0 then 1 else 2 * Pow2(k - 1)
  }

  function Min(a: nat, b: nat): (m: nat) {
    if a <= b then a else b
  }

  /**
   * floor(log2(n)) for n >= 1: the `(GLint) log2(double)` conversion in
   * Load, which truncates toward zero and is exact for 32-bit inputs.
   */
  function FloorLog2(n: nat): (k: nat)
    requires n >= 1
    ensures Pow2(k) <= n < 2 * Pow2(k)
  {
    if n < 2 then 0 else 1 + FloorLog2(n / 2)
  }

  /** Number of storage levels: log2 of the smaller side when mipmapping, else 1. */
  function NumMips(mipmap: bool, width: nat, height: nat): (n: int)
    requires width >= 1 && height >= 1
  {
    if mipmap then FloorLog2(Min(width, height)) else 1
  }

  /** The value Load gives GL_TEXTURE_MAX_LEVEL when mipmapping. */
  function MaxLevel(width: nat, height: nat): (m: int)
    requires width >= 1 && height >= 1
    ensures m >= -1
    ensures m == -1 <==> Min(width, height) == 1
    ensures Pow2(m + 1) <= Min(width, height) < Pow2(m + 2)
  {
    NumMips(true, width, height) - 1
  }

  /** How many levels the manual loop uploads (levels 1 .. ManualLevels). */
  function ManualLevels(width: nat, height: nat): (n: nat)
    requires width >= 1 && height >= 1
  {
    var n := FloorLog2(Min(width, height));
    if n >= 1 then n - 1 else 0
  }

  /** Size of manual level `level` along a side of `side` pixels. */
  function LevelSize(side: nat, level: nat): (size: nat) {
    var p := Pow2(level);
    // the quotient is a nat: without this fact the solver runs out of resource
    MulBounds(p, side / p);
    side / p
  }

  lemma {:induction false} Pow2Monotone(a: nat, b: nat)
    requires a <= b
    ensures Pow2(a) <= Pow2(b)
  {
    if a < b {
      Pow2Monotone(a, b - 1);
    }
  }

  /** 2^j fits in n exactly when j does not exceed floor(log2 n). */
  lemma Pow2AtMost(j: nat, n: nat)
    requires n >= 1
    ensures Pow2(j) <= n <==> j <= FloorLog2(n)
  {
    var k := FloorLog2(n);
    if j <= k {
      Pow2Monotone(j, k);
    } else {
      Pow2Monotone(k + 1, j);
    }
  }

  /** A nonzero multiple of d is at least d away from zero. */
  lemma {:induction false} MulBounds(d: int, z: int)
    requires d >= 1
    ensures z >= 1 ==> d * z >= d
    ensures z <= -1 ==> d * z <= -d
    decreases if z >= 0 then z else -z
  {
    if z > 1 {
      MulBounds(d, z - 1);
      assert d * z == d * (z - 1) + d;
    } else if z < -1 {
      MulBounds(d, z + 1);
      assert d * z == d * (z + 1) - d;
    }
  }

  /** Euclidean division is determined by quotient and remainder. */
  lemma DivUnique(n: nat, d: nat, q: int, r: int)
    requires d >= 1 && n == d * q + r && 0 <= r < d
    ensures n / d == q
  {
    var q0, r0 := n / d, n % d;
    var z := q - q0;
    assert d * z == r0 - r by {
      assert d * q0 + r0 == d * q + r;
      assert d * z == d * q - d * q0;
    }
    MulBounds(d, z);
  }

  /** Truncating one more halving is the same as dividing by the next power of two. */
  lemma HalveLevel(side: nat, level: nat)
    ensures LevelSize(side, level) / 2 == LevelSize(side, level + 1)
  {
    var p := Pow2(level);
    var q := side / p;
    var r := side % p;
    assert side == p * q + r;
    assert q == 2 * (q / 2) + q % 2;
    assert side == (2 * p) * (q / 2) + (p * (q % 2) + r) by {
      assert p * q == p * (2 * (q / 2)) + p * (q % 2);
    }
    assert 0 <= p * (q % 2) <= p;
    DivUnique(side, 2 * p, q / 2, p * (q % 2) + r);
  }

  /** A level's side exceeds 1 exactly when twice the level's power of two fits. */
  lemma LevelAboveOne(side: nat, level: nat)
    ensures LevelSize(side, level) > 1 <==> 2 * Pow2(level) <= side
  {
    var p := Pow2(level);
    var q := side / p;
    assert side == p * q + side % p;
    if q >= 2 {
      assert p * q >= p * 2;
    } else {
      assert p * q <= p * 1;
    }
  }

  /**
   * The guard of the manual loop, checked with `l` levels already uploaded
   * (so `w`, `h` are the sizes of level l + 1), holds exactly while fewer
   * than ManualLevels levels have been uploaded.
   */
  lemma ContinueIff(width: nat, height: nat, l: nat)
    requires width >= 1 && height >= 1
    ensures (LevelSize(width, l + 1) > 1 && LevelSize(height, l + 1) > 1)
            <==> l < ManualLevels(width, height)
  {
    LevelAboveOne(width, l + 1);
    LevelAboveOne(height, l + 1);
    Pow2AtMost(l + 2, Min(width, height));
  }
}
