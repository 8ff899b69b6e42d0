/**
 * Bilinear sampling of the height map at a real position (CalculateGradientAndHeight).
 */
module ErosionSampler {
  import opened Grid
  import opened ErosionSettings

  /**
   * The positions the sampler may be asked about: non-negative (so the float-to-int conversion,
   * which truncates, is the floor) and with both floors one short of the last row and column.
   */
  predicate Sampleable(px: real, py: real) {
    0.0 <= px && 0.0 <= py && px.Floor + 1 < ErosionMapSize && py.Floor + 1 < ErosionMapSize
  }

  /** Index of the north-west corner of the cell holding the position. */
  function CellIndex(px: real, py: real): int {
    px.Floor + py.Floor * ErosionMapSize
  }

  /** The four corners of a cell are grid entries. */
  lemma CellCornersInGrid(px: real, py: real)
    requires Sampleable(px, py)
    ensures 0 <= CellIndex(px, py) && CellIndex(px, py) + 1 + ErosionMapSize < VertexCount
  {
  }

  /**
   * Gradient and height inside one cell, from the heights of its north-west, north-east,
   * south-west and south-east corners and the offsets of the position inside the cell.
   */
  function Bilinear(nw: real, ne: real, sw: real, se: real, ox: real, oy: real): GradientAndHeight {
    GradientAndHeight(
      (ne - nw) * (1.0 - oy) + (se - sw) * oy,
      (sw - nw) * (1.0 - ox) + (se - ne) * ox,
      nw * (1.0 - ox) * (1.0 - oy) + ne * ox * (1.0 - oy) + sw * (1.0 - ox) * oy + se * ox * oy)
  }

  function CalculateGradientAndHeight(h: seq<Vector>, px: real, py: real): GradientAndHeight
    requires |h| == VertexCount && Sampleable(px, py)
  {
    var ix, iy := px.Floor, py.Floor;
    var c := ix + iy * ErosionMapSize;
    Bilinear(h[c].Z, h[c + 1].Z, h[c + ErosionMapSize].Z, h[c + 1 + ErosionMapSize].Z,
             px - ix as real, py - iy as real)
  }

  /** Two height maps that agree on the Z of the four corners of the cell sample alike. */
  lemma SamplerReadsOnlyCellCorners(h: seq<Vector>, h': seq<Vector>, px: real, py: real)
    requires |h| == |h'| == VertexCount && Sampleable(px, py)
    requires var c := CellIndex(px, py);
      && 0 <= c && c + 1 + ErosionMapSize < VertexCount
      && h[c].Z == h'[c].Z && h[c + 1].Z == h'[c + 1].Z
      && h[c + ErosionMapSize].Z == h'[c + ErosionMapSize].Z
      && h[c + 1 + ErosionMapSize].Z == h'[c + 1 + ErosionMapSize].Z
    ensures CalculateGradientAndHeight(h, px, py) == CalculateGradientAndHeight(h', px, py)
  {
  }

  /** On a grid of constant height both gradients vanish and the height is that constant. */
  lemma SamplerOnFlatGrid(h: seq<Vector>, z: real, px: real, py: real)
    requires |h| == VertexCount && Sampleable(px, py)
    requires forall k :: 0 <= k < |h| ==> h[k].Z == z
    ensures CalculateGradientAndHeight(h, px, py) == GradientAndHeight(0.0, 0.0, z)
  {
    CellCornersInGrid(px, py);
    BilinearOfConstant(z, px - px.Floor as real, py - py.Floor as real);
  }

  lemma BilinearOfConstant(z: real, ox: real, oy: real)
    ensures Bilinear(z, z, z, z, ox, oy) == GradientAndHeight(0.0, 0.0, z)
  {
    assert z * (1.0 - ox) * (1.0 - oy) + z * ox * (1.0 - oy) + z * (1.0 - ox) * oy + z * ox * oy
        == z * ((1.0 - ox) * (1.0 - oy) + ox * (1.0 - oy) + (1.0 - ox) * oy + ox * oy);
    BilinearWeightsSumToOne(ox, oy);
  }

  lemma BilinearWeightsSumToOne(ox: real, oy: real)
    ensures (1.0 - ox) * (1.0 - oy) + ox * (1.0 - oy) + (1.0 - ox) * oy + ox * oy == 1.0
  {
  }

  /**
   * The sampled height is a convex combination of the four corners, so it lies between the
   * lowest and the highest of them.
   */
  lemma SampledHeightBetweenCorners(h: seq<Vector>, px: real, py: real)
    requires |h| == VertexCount && Sampleable(px, py)
    ensures var c := CellIndex(px, py);
      var nw, ne, sw, se := h[c].Z, h[c + 1].Z, h[c + ErosionMapSize].Z, h[c + 1 + ErosionMapSize].Z;
      var g := CalculateGradientAndHeight(h, px, py);
      Min(Min(nw, ne), Min(sw, se)) <= g.Height <= Max(Max(nw, ne), Max(sw, se))
  {
    var c := CellIndex(px, py);
    CellCornersInGrid(px, py);
    BilinearHeightBetweenCorners(h[c].Z, h[c + 1].Z, h[c + ErosionMapSize].Z, h[c + 1 + ErosionMapSize].Z,
                                 px - px.Floor as real, py - py.Floor as real);
  }

  lemma BilinearHeightBetweenCorners(nw: real, ne: real, sw: real, se: real, ox: real, oy: real)
    requires 0.0 <= ox <= 1.0 && 0.0 <= oy <= 1.0
    ensures Min(Min(nw, ne), Min(sw, se)) <= Bilinear(nw, ne, sw, se, ox, oy).Height <= Max(Max(nw, ne), Max(sw, se))
  {
    var a, b, d, e := (1.0 - ox) * (1.0 - oy), ox * (1.0 - oy), (1.0 - ox) * oy, ox * oy;
    BilinearWeightsSumToOne(ox, oy);
    NonnegativeProduct(1.0 - ox, 1.0 - oy);
    NonnegativeProduct(ox, 1.0 - oy);
    NonnegativeProduct(1.0 - ox, oy);
    NonnegativeProduct(ox, oy);
    assert Bilinear(nw, ne, sw, se, ox, oy).Height == nw * a + ne * b + sw * d + se * e;
    ConvexCombination(nw, ne, sw, se, a, b, d, e, Min(Min(nw, ne), Min(sw, se)), Max(Max(nw, ne), Max(sw, se)));
  }

  /** A weighted mean of four values with non-negative weights summing to 1 stays within their bounds. */
  lemma ConvexCombination(v1: real, v2: real, v3: real, v4: real, w1: real, w2: real, w3: real, w4: real, lo: real, hi: real)
    requires w1 >= 0.0 && w2 >= 0.0 && w3 >= 0.0 && w4 >= 0.0 && w1 + w2 + w3 + w4 == 1.0
    requires lo <= v1 <= hi && lo <= v2 <= hi && lo <= v3 <= hi && lo <= v4 <= hi
    ensures lo <= v1 * w1 + v2 * w2 + v3 * w3 + v4 * w4 <= hi
  {
    WeightedAbove(v1, v2, v3, v4, w1, w2, w3, w4, lo);
    WeightedAbove(-v1, -v2, -v3, -v4, w1, w2, w3, w4, -hi);
    assert (-v1) * w1 + (-v2) * w2 + (-v3) * w3 + (-v4) * w4 == -(v1 * w1 + v2 * w2 + v3 * w3 + v4 * w4);
  }

  lemma WeightedAbove(v1: real, v2: real, v3: real, v4: real, w1: real, w2: real, w3: real, w4: real, lo: real)
    requires w1 >= 0.0 && w2 >= 0.0 && w3 >= 0.0 && w4 >= 0.0
    requires lo <= v1 && lo <= v2 && lo <= v3 && lo <= v4
    ensures lo * (w1 + w2 + w3 + w4) <= v1 * w1 + v2 * w2 + v3 * w3 + v4 * w4
  {
    ScaledAbove(v1, w1, lo);
    ScaledAbove(v2, w2, lo);
    ScaledAbove(v3, w3, lo);
    ScaledAbove(v4, w4, lo);
    DistributeFour(lo, w1, w2, w3, w4);
  }

  lemma ScaledAbove(v: real, w: real, lo: real)
    requires lo <= v && w >= 0.0
    ensures lo * w <= v * w
  {
  }

  lemma DistributeFour(a: real, b1: real, b2: real, b3: real, b4: real)
    ensures a * (b1 + b2 + b3 + b4) == a * b1 + a * b2 + a * b3 + a * b4
  {
  }

  lemma NonnegativeProduct(a: real, b: real)
    requires a >= 0.0 && b >= 0.0
    ensures a * b >= 0.0
  {
  }

  /** A spawn position drawn from [ErosionRadius, ErosionMapSize - ErosionRadius) can be sampled
      whenever the radius is positive. */
  lemma SpawnIsSampleable(cfg: Settings, p: SpawnPoint)
    requires cfg.ErosionRadius > 0 && SpawnInRange(cfg, p)
    ensures Sampleable(p.X, p.Y)
  {
  }

  /** With the clamped radius the spawn range is non-empty and lies strictly inside the grid. */
  lemma SpawnRangeNonEmpty(cfg: Settings)
    requires cfg.WithinClampRanges()
    ensures var r := cfg.ErosionRadius as real;
      0.0 < r < ErosionMapSize as real - r < ErosionMapSize as real - 1.0
    ensures SpawnInRange(cfg, SpawnPoint(cfg.ErosionRadius as real, cfg.ErosionRadius as real))
  {
  }
}
