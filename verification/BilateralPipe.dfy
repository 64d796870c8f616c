/** The loop nests of the bilateral filter, as bilateral_naive.cpp and bilateral_polymage.cpp contain them. */
module BilateralPipe {
  import opened Buffers
  import opened Nests
  import opened BilateralSpec

  /** both images of the grid take in one pixel */
  method AccumulateSample<P(0)>(e: Kernels<P>, v: P, grid: Window<P>, i: int, j: int)
    requires grid.buf.Valid() && 0 <= e.bin(v) <= 12 && forall k :: 0 <= k < 30 ==> grid.Has(k, i, j)
    modifies grid.buf.data
    ensures forall c, z {:trigger Plane(c, z)} :: 0 <= c <= 1 && 0 <= z <= 14 ==>
              grid.At(Plane(c, z), i, j) == Accumulate(e, c, z, old(grid.At(Plane(c, z), i, j)), v)
    ensures forall k, i', j' {:trigger grid.At(k, i', j')} :: i' != i || j' != j ==> grid.At(k, i', j') == old(grid.At(k, i', j'))
  {
    var z := 2 + e.bin(v);
    assert grid.Has(z, i, j) && grid.Has(15 + z, i, j);
    grid.buf.Store(z, i - grid.r0, j - grid.c0, e.add(grid.At(z, i, j), v));
    grid.buf.Store(15 + z, i - grid.r0, j - grid.c0, e.add(grid.At(15 + z, i, j), e.one));
  }

  /** row a of the cell's samples */
  method AccumulateSamples<P(0, !new)>(e: Kernels<P>, gray: Window<P>, grid: Window<P>, i: int, j: int, a: nat,
                                       ghost have: Box, ghost f: Stage<P>)
    requires grid.buf.Valid() && forall k :: 0 <= k < 30 ==> grid.Has(k, i, j)
    requires Known(gray, 1, have, f) && grid.buf.data != gray.buf.data
    requires have.Contains(Box(-4 + a + 8 * i, -4 + a + 8 * i, -4 + 8 * j, 8 * j + 4)) && e.side <= 9
    requires forall i, j {:trigger f(0, i, j)} :: have.Has(i, j) ==> 0 <= e.bin(f(0, i, j)) <= 12
    requires forall c, z {:trigger Plane(c, z)} :: 0 <= c <= 1 && 0 <= z <= 14 ==>
               grid.At(Plane(c, z), i, j) == Histogram(e, f, c, z, i, j, a, 0)
    modifies grid.buf.data
    ensures forall c, z {:trigger Plane(c, z)} :: 0 <= c <= 1 && 0 <= z <= 14 ==>
              grid.At(Plane(c, z), i, j) == Histogram(e, f, c, z, i, j, a + 1, 0)
    ensures forall k, i', j' {:trigger grid.At(k, i', j')} :: i' != i || j' != j ==> grid.At(k, i', j') == old(grid.At(k, i', j'))
  {
    var b := 0;
    while b < e.side
      invariant 0 <= b <= e.side
      invariant forall c, z {:trigger Plane(c, z)} :: 0 <= c <= 1 && 0 <= z <= 14 ==>
                  grid.At(Plane(c, z), i, j) == Histogram(e, f, c, z, i, j, a, b)
      invariant forall k, i', j' {:trigger grid.At(k, i', j')} ::
                  i' != i || j' != j ==> grid.At(k, i', j') == old(grid.At(k, i', j'))
    {
      var v := gray.At(0, -4 + a + 8 * i, -4 + 8 * j + b);
      AccumulatePixel(e, v, grid, i, j, a, b, f);
      b := b + 1;
    }
    forall c, z {:trigger Plane(c, z)} | 0 <= c <= 1 && 0 <= z <= 14
      ensures grid.At(Plane(c, z), i, j) == Histogram(e, f, c, z, i, j, a + 1, 0)
    {
    }
  }

  /** sample b of row a of the cell's samples */
  method AccumulatePixel<P(0, !new)>(e: Kernels<P>, v: P, grid: Window<P>, i: int, j: int, ghost a: nat, ghost b: nat, ghost f: Stage<P>)
    requires grid.buf.Valid() && 0 <= e.bin(v) <= 12 && forall k :: 0 <= k < 30 ==> grid.Has(k, i, j)
    requires v == f(0, -4 + a + 8 * i, -4 + 8 * j + b)
    requires forall c, z {:trigger Plane(c, z)} :: 0 <= c <= 1 && 0 <= z <= 14 ==>
               grid.At(Plane(c, z), i, j) == Histogram(e, f, c, z, i, j, a, b)
    modifies grid.buf.data
    ensures forall c, z {:trigger Plane(c, z)} :: 0 <= c <= 1 && 0 <= z <= 14 ==>
              grid.At(Plane(c, z), i, j) == Histogram(e, f, c, z, i, j, a, b + 1)
    ensures forall k, i', j' {:trigger grid.At(k, i', j')} :: i' != i || j' != j ==> grid.At(k, i', j') == old(grid.At(k, i', j'))
  {
    AccumulateSample(e, v, grid, i, j);
  }

  /** one grid cell, from its side x side pixels */
  method AccumulateCell<P(0, !new)>(e: Kernels<P>, gray: Window<P>, grid: Window<P>, i: int, j: int,
                                    ghost have: Box, ghost f: Stage<P>, ghost g: Stage<P>)
    requires grid.buf.Valid() && (forall k :: 0 <= k < 30 ==> grid.Has(k, i, j)) && GridLaw(e, f, g)
    requires Known(gray, 1, have, f) && grid.buf.data != gray.buf.data
    requires have.Contains(Box(8 * i - 4, 8 * i + 4, 8 * j - 4, 8 * j + 4)) && e.side <= 9
    requires forall i, j {:trigger f(0, i, j)} :: have.Has(i, j) ==> 0 <= e.bin(f(0, i, j)) <= 12
    requires forall k {:trigger grid.At(k, i, j)} :: 0 <= k < 30 ==> grid.At(k, i, j) == e.zero
    modifies grid.buf.data
    ensures forall k {:trigger grid.At(k, i, j)} :: 0 <= k < 30 ==> grid.At(k, i, j) == g(k, i, j)
    ensures forall k, i', j' {:trigger grid.At(k, i', j')} :: i' != i || j' != j ==> grid.At(k, i', j') == old(grid.At(k, i', j'))
  {
    var a := 0;
    while a < e.side
      invariant 0 <= a <= e.side
      invariant forall c, z {:trigger Plane(c, z)} :: 0 <= c <= 1 && 0 <= z <= 14 ==>
                  grid.At(Plane(c, z), i, j) == Histogram(e, f, c, z, i, j, a, 0)
      invariant forall k, i', j' {:trigger grid.At(k, i', j')} ::
                  i' != i || j' != j ==> grid.At(k, i', j') == old(grid.At(k, i', j'))
    {
      AccumulateSamples(e, gray, grid, i, j, a, have, f);
      a := a + 1;
    }
    forall k | 0 <= k < 30 ensures grid.At(k, i, j) == g(k, i, j) {
      assert k == if k < 15 then Plane(0, k) else Plane(1, k - 15);
    }
  }

  method AccumulateRow<P(0, !new)>(e: Kernels<P>, gray: Window<P>, grid: Window<P>, box: Box, i: int,
                                   ghost have: Box, ghost f: Stage<P>, ghost g: Stage<P>)
    requires CanStore(grid, 30, box) && box.r0 <= i <= box.r1 && e.side <= 9 && GridLaw(e, f, g)
    requires Known(gray, 1, have, f) && grid.buf.data != gray.buf.data
    requires have.Contains(Box(8 * box.r0 - 4, 8 * box.r1 + 4, 8 * box.c0 - 4, 8 * box.c1 + 4))
    requires forall i, j {:trigger f(0, i, j)} :: have.Has(i, j) ==> 0 <= e.bin(f(0, i, j)) <= 12
    requires forall k, j {:trigger grid.At(k, i, j)} :: 0 <= k < 30 && box.Has(i, j) ==> grid.At(k, i, j) == e.zero
    modifies grid.buf.data
    ensures forall k, j {:trigger grid.At(k, i, j)} :: 0 <= k < 30 && box.Has(i, j) ==> grid.At(k, i, j) == g(k, i, j)
    ensures forall k, i', j {:trigger grid.At(k, i', j)} :: i' != i ==> grid.At(k, i', j) == old(grid.At(k, i', j))
  {
    var j := box.c0;
    while j <= box.c1
      invariant box.c0 <= j
      invariant forall k, j' {:trigger grid.At(k, i, j')} ::
                  0 <= k < 30 && box.Has(i, j') ==> grid.At(k, i, j') == if j' < j then g(k, i, j') else e.zero
      invariant forall k, i', j' {:trigger grid.At(k, i', j')} :: i' != i ==> grid.At(k, i', j') == old(grid.At(k, i', j'))
    {
      AccumulateCell(e, gray, grid, i, j, have, f, g);
      j := j + 1;
    }
  }

  /** the whole grid: bilateral_naive.cpp:176-202, bilateral_polymage.cpp:171-199 */
  method FillGrid<P(0, !new)>(e: Kernels<P>, gray: Window<P>, box: Box, stray: (int, int, int) -> P,
                              ghost have: Box, ghost f: Stage<P>, ghost g: Stage<P>)
    returns (grid: Window<P>)
    requires Known(gray, 1, have, f) && GridLaw(e, f, g)
    requires box.r0 <= box.r1 + 1 && box.c0 <= box.c1 + 1 && e.side <= 9
    requires have.Contains(Box(8 * box.r0 - 4, 8 * box.r1 + 4, 8 * box.c0 - 4, 8 * box.c1 + 4))
    requires forall i, j {:trigger f(0, i, j)} :: have.Has(i, j) ==> 0 <= e.bin(f(0, i, j)) <= 12
    ensures Known(grid, 30, box, g) && fresh(grid.buf.data)
  {
    var buf := new Buffer(30, box.r1 - box.r0 + 1, box.c1 - box.c0 + 1, stray);
    grid := Window(buf, box.r0, box.c0);
    FillBox(grid, 30, box, (k, i, j) => e.zero, box, (k, i, j) => e.zero);
    var i := box.r0;
    while i <= box.r1
      invariant box.r0 <= i
      invariant forall k, i', j {:trigger grid.At(k, i', j)} ::
                  0 <= k < 30 && box.Has(i', j) ==> grid.At(k, i', j) == if i' < i then g(k, i', j) else e.zero
    {
      AccumulateRow(e, gray, grid, box, i, have, f, g);
      i := i + 1;
    }
  }

  // The blurs. `nest` is what a nest stores, `good` the part of it where its input, known on `have`, makes it the
  // stage.

  function BlurZCell<P(0)>(e: Kernels<P>, src: Window<P>, k: int, i: int, j: int): P
    requires src.buf.Valid()
    reads src.buf.data
  {
    e.blur(src.At(Below(k), i, j), src.At(Below(k) + 1, i, j), src.At(Below(k) + 2, i, j),
           src.At(Below(k) + 3, i, j), src.At(Below(k) + 4, i, j))
  }

  lemma BlurZCellIs<P(0, !new)>(e: Kernels<P>, src: Window<P>, k: int, i: int, j: int, have: Box, f: Stage<P>)
    requires Known(src, 30, have, f) && 0 <= k < 22 && have.Has(i, j)
    ensures BlurZCell(e, src, k, i, j) == BlurZ(e, f, k, i, j)
  {
  }

  method BlurZNest<P(0, !new)>(e: Kernels<P>, src: Window<P>, dst: Window<P>, nest: Box,
                            ghost good: Box, ghost have: Box, ghost f: Stage<P>, ghost g: Stage<P>)
    requires Known(src, 30, have, f) && have.Contains(good)
    requires CanStore(dst, 22, nest) && nest.Contains(good) && dst.buf.data != src.buf.data
    requires BlurZLaw(e, f, g)
    modifies dst.buf.data
    ensures Known(dst, 22, good, g)
  {
    forall k, i, j | 0 <= k < 22 && good.Has(i, j) ensures BlurZCell(e, src, k, i, j) == g(k, i, j) {
      BlurZCellIs(e, src, k, i, j, have, f);
    }
    FillBox(dst, 22, nest,
            (k, i, j) requires src.buf.Valid() reads src.buf.data => BlurZCell(e, src, k, i, j),
            good, g);
  }

  function BlurRowsCell<P(0)>(e: Kernels<P>, src: Window<P>, k: int, i: int, j: int): P
    requires src.buf.Valid()
    reads src.buf.data
  {
    e.blur(src.At(k, i - 2, j), src.At(k, i - 1, j), src.At(k, i, j), src.At(k, i + 1, j), src.At(k, i + 2, j))
  }

  lemma BlurRowsCellIs<P(0, !new)>(e: Kernels<P>, src: Window<P>, k: int, i: int, j: int, have: Box, f: Stage<P>)
    requires Known(src, 22, have, f) && 0 <= k < 22 && have.Has(i - 2, j) && have.Has(i + 2, j)
    ensures BlurRowsCell(e, src, k, i, j) == BlurRows(e, f, k, i, j)
  {
  }

  method BlurRowsNest<P(0, !new)>(e: Kernels<P>, src: Window<P>, dst: Window<P>, nest: Box,
                            ghost good: Box, ghost have: Box, ghost f: Stage<P>, ghost g: Stage<P>)
    requires Known(src, 22, have, f) && have.Contains(good.Grow(2, 2, 0, 0))
    requires CanStore(dst, 22, nest) && nest.Contains(good) && dst.buf.data != src.buf.data
    requires BlurRowsLaw(e, f, g)
    modifies dst.buf.data
    ensures Known(dst, 22, good, g)
  {
    forall k, i, j | 0 <= k < 22 && good.Has(i, j) ensures BlurRowsCell(e, src, k, i, j) == g(k, i, j) {
      BlurRowsCellIs(e, src, k, i, j, have, f);
    }
    FillBox(dst, 22, nest,
            (k, i, j) requires src.buf.Valid() reads src.buf.data => BlurRowsCell(e, src, k, i, j),
            good, g);
  }

  function BlurColsCell<P(0)>(e: Kernels<P>, src: Window<P>, k: int, i: int, j: int): P
    requires src.buf.Valid()
    reads src.buf.data
  {
    e.blur(src.At(k, i, j - 2), src.At(k, i, j - 1), src.At(k, i, j), src.At(k, i, j + 1), src.At(k, i, j + 2))
  }

  lemma BlurColsCellIs<P(0, !new)>(e: Kernels<P>, src: Window<P>, k: int, i: int, j: int, have: Box, f: Stage<P>)
    requires Known(src, 22, have, f) && 0 <= k < 22 && have.Has(i, j - 2) && have.Has(i, j + 2)
    ensures BlurColsCell(e, src, k, i, j) == BlurCols(e, f, k, i, j)
  {
  }

  method BlurColsNest<P(0, !new)>(e: Kernels<P>, src: Window<P>, dst: Window<P>, nest: Box,
                            ghost good: Box, ghost have: Box, ghost f: Stage<P>, ghost g: Stage<P>)
    requires Known(src, 22, have, f) && have.Contains(good.Grow(0, 0, 2, 2))
    requires CanStore(dst, 22, nest) && nest.Contains(good) && dst.buf.data != src.buf.data
    requires BlurColsLaw(e, f, g)
    modifies dst.buf.data
    ensures Known(dst, 22, good, g)
  {
    forall k, i, j | 0 <= k < 22 && good.Has(i, j) ensures BlurColsCell(e, src, k, i, j) == g(k, i, j) {
      BlurColsCellIs(e, src, k, i, j, have, f);
    }
    FillBox(dst, 22, nest,
            (k, i, j) requires src.buf.Valid() reads src.buf.data => BlurColsCell(e, src, k, i, j),
            good, g);
  }

  /** Pixels whose grid corners all lie in the coarse box. */
  predicate Inside(pixels: Box, coarse: Box) {
    && 8 * coarse.r0 <= pixels.r0 && pixels.r1 <= 8 * coarse.r1 - 1
    && 8 * coarse.c0 <= pixels.c0 && pixels.c1 <= 8 * coarse.c1 - 1
  }

  lemma Corner(n: int, lo: int, hi: int)
    requires 8 * lo <= n <= 8 * hi - 1
    ensures lo <= n / 8 && n / 8 + 1 <= hi
  {
  }

  function SliceCell<P(0)>(e: Kernels<P>, v: P, src: Window<P>, c: int, i: int, j: int): P
    requires src.buf.Valid()
    reads src.buf.data
  {
    var z := 11 * c + e.level(v);
    e.slice(i % 8, j % 8, v,
            src.At(z, i / 8, j / 8), src.At(z, i / 8 + 1, j / 8), src.At(z, i / 8, j / 8 + 1), src.At(z, i / 8 + 1, j / 8 + 1),
            src.At(z + 1, i / 8, j / 8), src.At(z + 1, i / 8 + 1, j / 8),
            src.At(z + 1, i / 8, j / 8 + 1), src.At(z + 1, i / 8 + 1, j / 8 + 1))
  }

  lemma SliceCellIs<P(0, !new)>(e: Kernels<P>, v: P, src: Window<P>, c: int, i: int, j: int, have: Box, f: Stage<P>)
    requires Known(src, 22, have, f) && 0 <= c <= 1 && 0 <= e.level(v) <= 9
    requires have.Has(i / 8, j / 8) && have.Has(i / 8 + 1, j / 8 + 1)
    ensures SliceCell(e, v, src, c, i, j) == Slice(e, v, f, c, i, j)
  {
    var z := 11 * c + e.level(v);
    assert forall u, w :: have.Has(u, w) ==> src.At(z, u, w) == f(z, u, w) && src.At(z + 1, u, w) == f(z + 1, u, w);
  }

  method SliceNest<P(0, !new)>(e: Kernels<P>, gray: Window<P>, src: Window<P>, dst: Window<P>, nest: Box,
                               ghost good: Box, ghost haveGray: Box, ghost have: Box,
                               ghost v: Stage<P>, ghost f: Stage<P>, ghost g: Stage<P>)
    requires Known(gray, 1, haveGray, v) && haveGray.Contains(good) && Known(src, 22, have, f) && Inside(good, have)
    requires forall i, j {:trigger v(0, i, j)} :: haveGray.Has(i, j) ==> 0 <= e.level(v(0, i, j)) <= 9
    requires CanStore(dst, 2, nest) && nest.Contains(good)
    requires dst.buf.data != src.buf.data && dst.buf.data != gray.buf.data
    requires SliceLaw(e, v, f, g)
    modifies dst.buf.data
    ensures Known(dst, 2, good, g)
  {
    forall c, i, j | 0 <= c < 2 && good.Has(i, j) ensures SliceCell(e, gray.At(0, i, j), src, c, i, j) == g(c, i, j) {
      Corner(i, have.r0, have.r1);
      Corner(j, have.c0, have.c1);
      SliceCellIs(e, gray.At(0, i, j), src, c, i, j, have, f);
    }
    FillBox(dst, 2, nest,
            (c, i, j) requires gray.buf.Valid() && src.buf.Valid() reads gray.buf.data, src.buf.data =>
              SliceCell(e, gray.At(0, i, j), src, c, i, j),
            good, g);
  }

  method NormalNest<P(0, !new)>(e: Kernels<P>, src: Window<P>, gray: Window<P>, dst: Window<P>, nest: Box,
                                ghost have: Box, ghost f: Stage<P>, ghost v: Stage<P>, ghost g: Stage<P>)
    requires Known(src, 2, nest, f) && Known(gray, 1, have, v) && have.Contains(nest)
    requires CanStore(dst, 1, nest) && dst.buf.data != src.buf.data && dst.buf.data != gray.buf.data
    requires NormalLaw(e, f, v, g)
    modifies dst.buf.data
    ensures Holds(dst, 1, nest, g)
    ensures forall k, i, j {:trigger dst.At(k, i, j)} ::
              !(k == 0 && nest.Has(i, j)) ==> dst.At(k, i, j) == old(dst.At(k, i, j))
  {
    FillBox(dst, 1, nest,
            (k, i, j) requires src.buf.Valid() && gray.buf.Valid() reads src.buf.data, gray.buf.data =>
              e.normal(src.At(0, i, j), src.At(1, i, j), gray.At(0, i, j)),
            nest, g);
  }
}
