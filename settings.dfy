/** The two configuration enums of the pipeline: the resolution of the shadow
    atlases and the number of directional shadow cascades. */
module Settings {

  /** Resolution of a square shadow atlas. Each value stands for its edge
      length in texels. */
  datatype ShadowMapSize = Size256 | Size512 | Size1024 | Size2048 | Size4096

  /** The edge length, in texels, that a ShadowMapSize value stands for. */
  function Pixels(s: ShadowMapSize): (p: int)
    ensures 256 <= p <= 4096
    ensures 4096 % p == 0
  {
    match s
    case Size256 => 256
    case Size512 => 512
    case Size1024 => 1024
    case Size2048 => 2048
    case Size4096 => 4096
  }

  /** The resolutions an atlas can have. */
  predicate IsShadowMapPixels(n: int)
  {
    exists s: ShadowMapSize :: Pixels(s) == n
  }

  predicate IsPowerOfTwo(n: int)
    decreases if n < 0 then 0 else n
  {
    n == 1 || (n > 1 && n % 2 == 0 && IsPowerOfTwo(n / 2))
  }

  lemma PowerOfTwoHalves(n: int)
    requires n >= 2 && n % 2 == 0 && IsPowerOfTwo(n / 2)
    ensures IsPowerOfTwo(n)
  {
  }

  /** Every resolution is a power of two. */
  lemma {:induction false} PixelsArePowersOfTwo(s: ShadowMapSize)
    ensures IsPowerOfTwo(Pixels(s))
  {
    assert IsPowerOfTwo(1);
    PowerOfTwoHalves(2);
    PowerOfTwoHalves(4);
    PowerOfTwoHalves(8);
    PowerOfTwoHalves(16);
    PowerOfTwoHalves(32);
    PowerOfTwoHalves(64);
    PowerOfTwoHalves(128);
    PowerOfTwoHalves(256);
    PowerOfTwoHalves(512);
    PowerOfTwoHalves(1024);
    PowerOfTwoHalves(2048);
    PowerOfTwoHalves(4096);
  }

  /** Because every resolution is a power of two, halving it (the cascade
      atlas tile) and splitting it into 1, 2 or 4 columns (the general atlas)
      loses no texel to integer division. */
  lemma EvenSplitsAreExact(s: ShadowMapSize, split: int)
    requires split == 1 || split == 2 || split == 4
    ensures (Pixels(s) / split) * split == Pixels(s)
  {
  }

  /** For every split factor the atlas allocator can choose, including the
      truncating split of 3, the split x split grid of tiles fits inside the
      atlas, and a tile is at least 64 texels wide, so the scissor rectangle
      (tile size minus 8) is never empty. */
  lemma TilesFitAtlas(s: ShadowMapSize, split: int)
    requires 1 <= split <= 4
    ensures split * (Pixels(s) / split) <= Pixels(s)
    ensures Pixels(s) / split >= 64
  {
  }

  /** The number of directional shadow cascades. */
  datatype ShadowCascades = Zero | Two | Four

  /** The integer value of a ShadowCascades enum member. */
  function CascadeCount(c: ShadowCascades): (n: int)
    ensures n == 0 || n == 2 || n == 4
    ensures (n == 0) == c.Zero?
    ensures n % 2 == 0 && 0 <= n <= 4
  {
    match c
    case Zero => 0
    case Two => 2
    case Four => 4
  }
}
