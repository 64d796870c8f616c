/** The loop nests of the camera pipeline, as both files contain them. `nest` is what a nest stores, `good` the part
    of it where its inputs, known on `have`, make it the stage. */
module CameraStages {
  import opened Buffers
  import opened Nests
  import opened CameraSpec

  /** Plane k of w holds the stage f throughout the box. */
  ghost predicate Plane<P(0)>(w: Window<P>, k: int, box: Box, f: Stage<P>)
    reads w.buf.data
  {
    w.buf.Valid() && forall i, j {:trigger w.At(k, i, j)} :: box.Has(i, j) ==> w.At(k, i, j) == f(k, i, j)
  }

  ghost predicate Stores<P(0)>(w: Window<P>, k: int, box: Box) {
    w.buf.Valid() && forall i, j :: box.Has(i, j) ==> w.Has(k, i, j)
  }

  function DenoiseCell<P(0)>(e: Kernels<P>, src: Window<P>, i: int, j: int): P
    requires src.buf.Valid()
    reads src.buf.data
  {
    e.denoise(src.At(0, i - 2, j), src.At(0, i + 2, j), src.At(0, i, j - 2), src.At(0, i, j + 2), src.At(0, i, j))
  }

  lemma DenoiseCellIs<P(0, !new)>(e: Kernels<P>, src: Window<P>, i: int, j: int, have: Box, f: Stage<P>)
    requires Plane(src, 0, have, f) && have.Has(i - 2, j - 2) && have.Has(i + 2, j + 2)
    ensures DenoiseCell(e, src, i, j) == Denoised(e, f, i, j)
  {
  }

  method DenoiseNest<P(0, !new)>(e: Kernels<P>, src: Window<P>, dst: Window<P>, nest: Box,
                                 ghost good: Box, ghost have: Box, ghost f: Stage<P>, ghost g: Stage<P>)
    requires Plane(src, 0, have, f) && have.Contains(good.Grow(2, 2, 2, 2))
    requires Stores(dst, 0, nest) && nest.Contains(good) && dst.buf.data != src.buf.data
    requires DenoiseLaw(e, f, g)
    modifies dst.buf.data
    ensures Plane(dst, 0, good, g)
  {
    forall i, j | good.Has(i, j) ensures DenoiseCell(e, src, i, j) == g(0, i, j) {
      DenoiseCellIs(e, src, i, j, have, f);
    }
    FillPlane(dst, 0, Each(nest.r0, nest.r1), Each(nest.c0, nest.c1),
              (k, i, j) requires src.buf.Valid() reads src.buf.data => DenoiseCell(e, src, i, j),
              good, g);
  }

  method SampleNest<P(0, !new)>(src: Window<P>, dst: Window<P>, c: int, di: int, dj: int, nest: Box,
                                ghost good: Box, ghost have: Box, ghost f: Stage<P>, ghost g: Stage<P>)
    requires Plane(src, 0, have, f) && have.Contains(Full(good)) && 0 <= di <= 1 && 0 <= dj <= 1
    requires Stores(dst, c, nest) && nest.Contains(good) && dst.buf.data != src.buf.data
    requires SampleLaw(f, c, di, dj, g)
    modifies dst.buf.data
    ensures Plane(dst, c, good, g)
    ensures forall k, i, j {:trigger dst.At(k, i, j)} :: k != c ==> dst.At(k, i, j) == old(dst.At(k, i, j))
  {
    FillPlane(dst, c, Each(nest.r0, nest.r1), Each(nest.c0, nest.c1),
              (k, i, j) requires src.buf.Valid() reads src.buf.data => src.At(0, 2 * i + di, 2 * j + dj),
              good, g);
  }

  method CopyNest<P(0, !new)>(src: Window<P>, c: int, dst: Window<P>, nest: Box,
                              ghost good: Box, ghost have: Box, ghost f: Stage<P>, ghost g: Stage<P>)
    requires Plane(src, c, have, f) && have.Contains(good)
    requires Stores(dst, 0, nest) && nest.Contains(good) && dst.buf.data != src.buf.data
    requires PlaneLaw(f, c, g)
    modifies dst.buf.data
    ensures Plane(dst, 0, good, g)
  {
    FillPlane(dst, 0, Each(nest.r0, nest.r1), Each(nest.c0, nest.c1),
              (k, i, j) requires src.buf.Valid() reads src.buf.data => src.At(c, i, j),
              good, g);
  }

  function GuessCell<P(0)>(e: Kernels<P>, h: Window<P>, dj: int, v: Window<P>, di: int, i: int, j: int): P
    requires h.buf.Valid() && v.buf.Valid()
    reads h.buf.data, v.buf.data
  {
    e.guess(h.At(0, i, j + dj), h.At(0, i, j), v.At(0, i + di, j), v.At(0, i, j))
  }

  lemma GuessCellIs<P(0, !new)>(e: Kernels<P>, h: Window<P>, dj: int, v: Window<P>, di: int, i: int, j: int, have: Box, fh: Stage<P>, fv: Stage<P>)
    requires Plane(h, 0, have, fh) && Plane(v, 0, have, fv) && -1 <= di <= 1 && -1 <= dj <= 1
    requires have.Has(i - 1, j - 1) && have.Has(i + 1, j + 1)
    ensures GuessCell(e, h, dj, v, di, i, j) == Guess(e, fh, dj, fv, di, i, j)
  {
  }

  method GuessNest<P(0, !new)>(e: Kernels<P>, h: Window<P>, dj: int, v: Window<P>, di: int, dst: Window<P>, nest: Box,
                               ghost good: Box, ghost have: Box, ghost fh: Stage<P>, ghost fv: Stage<P>, ghost g: Stage<P>)
    requires Plane(h, 0, have, fh) && Plane(v, 0, have, fv) && have.Contains(good.Grow(1, 1, 1, 1))
    requires -1 <= di <= 1 && -1 <= dj <= 1
    requires Stores(dst, 0, nest) && nest.Contains(good) && dst.buf.data != h.buf.data && dst.buf.data != v.buf.data
    requires GuessLaw(e, fh, dj, fv, di, g)
    modifies dst.buf.data
    ensures Plane(dst, 0, good, g)
  {
    forall i, j | good.Has(i, j) ensures GuessCell(e, h, dj, v, di, i, j) == g(0, i, j) {
      GuessCellIs(e, h, dj, v, di, i, j, have, fh, fv);
    }
    FillPlane(dst, 0, Each(nest.r0, nest.r1), Each(nest.c0, nest.c1),
              (k, i, j) requires h.buf.Valid() && v.buf.Valid() reads h.buf.data, v.buf.data => GuessCell(e, h, dj, v, di, i, j),
              good, g);
  }

  function ShiftCell<P(0)>(e: Kernels<P>, green: Window<P>, q: Window<P>, c: Window<P>, di: int, dj: int, i: int, j: int): P
    requires green.buf.Valid() && q.buf.Valid() && c.buf.Valid()
    reads green.buf.data, q.buf.data, c.buf.data
  {
    e.shift(green.At(0, i, j), q.At(0, i, j), q.At(0, i + di, j + dj), c.At(0, i, j), c.At(0, i + di, j + dj))
  }

  lemma ShiftCellIs<P(0, !new)>(e: Kernels<P>, green: Window<P>, q: Window<P>, c: Window<P>, di: int, dj: int, i: int, j: int, have: Box, fg: Stage<P>, fq: Stage<P>, fc: Stage<P>)
    requires Plane(green, 0, have, fg) && Plane(q, 0, have, fq) && Plane(c, 0, have, fc) && -1 <= di <= 1 && -1 <= dj <= 1
    requires have.Has(i - 1, j - 1) && have.Has(i + 1, j + 1)
    ensures ShiftCell(e, green, q, c, di, dj, i, j) == Shifted(e, fg, fq, fc, di, dj, i, j)
  {
  }

  method ShiftNest<P(0, !new)>(e: Kernels<P>, green: Window<P>, q: Window<P>, c: Window<P>, di: int, dj: int,
                               dst: Window<P>, nest: Box, ghost good: Box, ghost have: Box,
                               ghost fg: Stage<P>, ghost fq: Stage<P>, ghost fc: Stage<P>, ghost g: Stage<P>)
    requires Plane(green, 0, have, fg) && Plane(q, 0, have, fq) && Plane(c, 0, have, fc)
    requires have.Contains(good.Grow(1, 1, 1, 1)) && -1 <= di <= 1 && -1 <= dj <= 1
    requires Stores(dst, 0, nest) && nest.Contains(good)
    requires dst.buf.data != green.buf.data && dst.buf.data != q.buf.data && dst.buf.data != c.buf.data
    requires ShiftLaw(e, fg, fq, fc, di, dj, g)
    modifies dst.buf.data
    ensures Plane(dst, 0, good, g)
  {
    forall i, j | good.Has(i, j) ensures ShiftCell(e, green, q, c, di, dj, i, j) == g(0, i, j) {
      ShiftCellIs(e, green, q, c, di, dj, i, j, have, fg, fq, fc);
    }
    FillPlane(dst, 0, Each(nest.r0, nest.r1), Each(nest.c0, nest.c1),
              (k, i, j) requires green.buf.Valid() && q.buf.Valid() && c.buf.Valid()
                        reads green.buf.data, q.buf.data, c.buf.data => ShiftCell(e, green, q, c, di, dj, i, j),
              good, g);
  }

  function DiagonalCell<P(0)>(e: Kernels<P>, green: Window<P>, q: Window<P>, c: Window<P>, d: int, i: int, j: int): P
    requires green.buf.Valid() && q.buf.Valid() && c.buf.Valid()
    reads green.buf.data, q.buf.data, c.buf.data
  {
    e.diagonal(green.At(0, i, j), q.At(0, i, j), q.At(0, i + d, j - d), c.At(0, i, j), c.At(0, i + d, j - d),
               q.At(0, i, j - d), q.At(0, i + d, j), c.At(0, i, j - d), c.At(0, i + d, j))
  }

  lemma DiagonalCellIs<P(0, !new)>(e: Kernels<P>, green: Window<P>, q: Window<P>, c: Window<P>, d: int, i: int, j: int,
                                   have: Box, fg: Stage<P>, fq: Stage<P>, fc: Stage<P>)
    requires Plane(green, 0, have, fg) && Plane(q, 0, have, fq) && Plane(c, 0, have, fc)
    requires -1 <= d <= 1 && have.Has(i - 1, j - 1) && have.Has(i + 1, j + 1)
    ensures DiagonalCell(e, green, q, c, d, i, j) == Diagonal(e, fg, fq, fc, d, i, j)
  {
  }

  method DiagonalNest<P(0, !new)>(e: Kernels<P>, green: Window<P>, q: Window<P>, c: Window<P>, d: int,
                                  dst: Window<P>, nest: Box, ghost good: Box, ghost have: Box,
                                  ghost fg: Stage<P>, ghost fq: Stage<P>, ghost fc: Stage<P>, ghost g: Stage<P>)
    requires Plane(green, 0, have, fg) && Plane(q, 0, have, fq) && Plane(c, 0, have, fc)
    requires have.Contains(good.Grow(1, 1, 1, 1)) && -1 <= d <= 1
    requires Stores(dst, 0, nest) && nest.Contains(good)
    requires dst.buf.data != green.buf.data && dst.buf.data != q.buf.data && dst.buf.data != c.buf.data
    requires DiagonalLaw(e, fg, fq, fc, d, g)
    modifies dst.buf.data
    ensures Plane(dst, 0, good, g)
  {
    forall i, j | good.Has(i, j)
      ensures DiagonalCell(e, green, q, c, d, i, j) == g(0, i, j)
    {
      DiagonalCellIs(e, green, q, c, d, i, j, have, fg, fq, fc);
    }
    FillPlane(dst, 0, Each(nest.r0, nest.r1), Each(nest.c0, nest.c1),
              (k, i, j) requires green.buf.Valid() && q.buf.Valid() && c.buf.Valid()
                        reads green.buf.data, q.buf.data, c.buf.data => DiagonalCell(e, green, q, c, d, i, j),
              good, g);
  }

  // Interleaving. Each image is stored by two nests that step by 2.

  /** the full-resolution cells of half-resolution ones */
  function Full(b: Box): Box { Box(2 * b.r0, 2 * b.r1 + 1, 2 * b.c0, 2 * b.c1 + 1) }

  function FullCols(b: Box): Box { Box(b.r0, b.r1, 2 * b.c0, 2 * b.c1 + 1) }

  lemma HalfOf(n: int, lo: int, hi: int)
    ensures 2 * lo <= n <= 2 * hi + 1 ==> lo <= n / 2 <= hi
    ensures n % 2 == 0 && n <= 2 * hi + 1 ==> n <= 2 * hi
    ensures n % 2 != 0 && 2 * lo <= n ==> 2 * lo + 1 <= n
  {
  }

  lemma Halves(b: Box)
    ensures forall n {:trigger n / 2} :: 2 * b.r0 <= n <= 2 * b.r1 + 1 ==> b.r0 <= n / 2 <= b.r1
    ensures forall n {:trigger n / 2} :: 2 * b.c0 <= n <= 2 * b.c1 + 1 ==> b.c0 <= n / 2 <= b.c1
  {
  }

  method WeaveSomeCols<P(0, !new)>(src: Window<P>, dst: Window<P>, nest: Box,
                                   ghost h: Box, ghost have: Box, ghost f: Stage<P>, ghost g: Stage<P>)
    requires Plane(src, 0, have, f) && have.Contains(h)
    requires Stores(dst, 0, nest) && dst.buf.data != src.buf.data
    requires forall i, j {:trigger g(0, i, j)} :: j % 2 == nest.c0 % 2 ==> g(0, i, j) == f(0, i, j / 2)
    modifies dst.buf.data
    ensures forall i, j {:trigger dst.At(0, i, j)} ::
              FullCols(h).Has(i, j) && nest.Has(i, j) && j % 2 == nest.c0 % 2 ==> dst.At(0, i, j) == g(0, i, j)
    ensures forall k, i, j {:trigger dst.At(k, i, j)} :: j % 2 != nest.c0 % 2 ==> dst.At(k, i, j) == old(dst.At(k, i, j))
  {
    Halves(h);
    FillPlane(dst, 0, Each(nest.r0, nest.r1), By2(nest.c0, nest.c1),
              (k, i, j) requires src.buf.Valid() reads src.buf.data => src.At(0, i, j / 2),
              FullCols(h), g);
  }

  method WeaveCols<P(0, !new)>(a: Window<P>, b: Window<P>, dst: Window<P>, even: Box, odd: Box,
                               ghost h: Box, ghost have: Box, ghost fa: Stage<P>, ghost fb: Stage<P>, ghost g: Stage<P>)
    requires Plane(a, 0, have, fa) && Plane(b, 0, have, fb) && have.Contains(h)
    requires Stores(dst, 0, even) && Stores(dst, 0, odd) && dst.buf.data != a.buf.data && dst.buf.data != b.buf.data
    requires ColsCover(even, odd, h) && WeaveColsLaw(fa, fb, g)
    modifies dst.buf.data
    ensures Plane(dst, 0, FullCols(h), g)
  {
    WeaveSomeCols(a, dst, even, h, have, fa, g);
    WeaveSomeCols(b, dst, odd, h, have, fb, g);
    forall i, j | FullCols(h).Has(i, j) ensures dst.At(0, i, j) == g(0, i, j) {
      HalfOf(j, h.c0, h.c1);
    }
  }

  method WeaveSomeRows<P(0, !new)>(src: Window<P>, dst: Window<P>, nest: Box,
                                   ghost h: Box, ghost f: Stage<P>, ghost g: Stage<P>)
    requires Plane(src, 0, FullCols(h), f)
    requires Stores(dst, 0, nest) && dst.buf.data != src.buf.data
    requires forall i, j {:trigger g(0, i, j)} :: i % 2 == nest.r0 % 2 ==> g(0, i, j) == f(0, i / 2, j)
    modifies dst.buf.data
    ensures forall i, j {:trigger dst.At(0, i, j)} ::
              Full(h).Has(i, j) && nest.Has(i, j) && i % 2 == nest.r0 % 2 ==> dst.At(0, i, j) == g(0, i, j)
    ensures forall k, i, j {:trigger dst.At(k, i, j)} :: i % 2 != nest.r0 % 2 ==> dst.At(k, i, j) == old(dst.At(k, i, j))
  {
    Halves(h);
    FillPlane(dst, 0, By2(nest.r0, nest.r1), Each(nest.c0, nest.c1),
              (k, i, j) requires src.buf.Valid() reads src.buf.data => src.At(0, i / 2, j),
              Full(h), g);
  }

  method WeaveRows<P(0, !new)>(a: Window<P>, b: Window<P>, dst: Window<P>, even: Box, odd: Box,
                               ghost h: Box, ghost fa: Stage<P>, ghost fb: Stage<P>, ghost g: Stage<P>)
    requires Plane(a, 0, FullCols(h), fa) && Plane(b, 0, FullCols(h), fb)
    requires Stores(dst, 0, even) && Stores(dst, 0, odd) && dst.buf.data != a.buf.data && dst.buf.data != b.buf.data
    requires RowsCover(even, odd, h) && WeaveRowsLaw(fa, fb, g)
    modifies dst.buf.data
    ensures Plane(dst, 0, Full(h), g)
  {
    WeaveSomeRows(a, dst, even, h, fa, g);
    WeaveSomeRows(b, dst, odd, h, fb, g);
    forall i, j | Full(h).Has(i, j) ensures dst.At(0, i, j) == g(0, i, j) {
      HalfOf(i, h.r0, h.r1);
    }
  }

  /** The nests over even and over odd columns leave no gap over h. */
  predicate ColsCover(even: Box, odd: Box, h: Box) {
    && even.c0 % 2 == 0 && odd.c0 % 2 == 1
    && even.Contains(Box(h.r0, h.r1, 2 * h.c0, 2 * h.c1)) && odd.Contains(Box(h.r0, h.r1, 2 * h.c0 + 1, 2 * h.c1 + 1))
  }

  predicate RowsCover(even: Box, odd: Box, h: Box) {
    && even.r0 % 2 == 0 && odd.r0 % 2 == 1
    && even.Contains(Box(2 * h.r0, 2 * h.r1, 2 * h.c0, 2 * h.c1 + 1))
    && odd.Contains(Box(2 * h.r0 + 1, 2 * h.r1 + 1, 2 * h.c0, 2 * h.c1 + 1))
  }

  /** output channel k */
  method ColourNest<P(0, !new)>(e: Kernels<P>, r: Window<P>, g: Window<P>, b: Window<P>, dst: Window<P>, k: int, nest: Box,
                                ghost good: Box, ghost fr: Stage<P>, ghost fg: Stage<P>, ghost fb: Stage<P>, ghost out: Stage<P>)
    requires Plane(r, 0, good, fr) && Plane(g, 0, good, fg) && Plane(b, 0, good, fb)
    requires Stores(dst, k, nest) && nest.Contains(good)
    requires dst.buf.data != r.buf.data && dst.buf.data != g.buf.data && dst.buf.data != b.buf.data
    requires ColourLaw(e, fr, fg, fb, out)
    modifies dst.buf.data
    ensures Plane(dst, k, good, out)
    ensures forall k', i, j {:trigger dst.At(k', i, j)} :: k' != k ==> dst.At(k', i, j) == old(dst.At(k', i, j))
  {
    FillPlane(dst, k, Each(nest.r0, nest.r1), Each(nest.c0, nest.c1),
              (k, i, j) requires r.buf.Valid() && g.buf.Valid() && b.buf.Valid() reads r.buf.data, g.buf.data, b.buf.data =>
                e.colour(k, r.At(0, i, j), g.At(0, i, j), b.At(0, i, j)),
              good, out);
  }

  method CurveNest<P(0, !new)>(e: Kernels<P>, src: Window<P>, dst: Window<P>, nest: Box, ghost f: Stage<P>, ghost g: Stage<P>)
    requires Plane(src, 0, nest, f) && Plane(src, 1, nest, f) && Plane(src, 2, nest, f)
    requires CanStore(dst, 3, nest) && dst.buf.data != src.buf.data
    requires CurveLaw(e, f, g)
    modifies dst.buf.data
    ensures Holds(dst, 3, nest, g)
    ensures forall k, i, j {:trigger dst.At(k, i, j)} :: !nest.Has(i, j) ==> dst.At(k, i, j) == old(dst.At(k, i, j))
  {
    FillBox(dst, 3, nest,
            (k, i, j) requires src.buf.Valid() reads src.buf.data => e.curve(src.At(k, i, j)),
            nest, g);
  }
}
