/** The loop nests of the local Laplacian, as both pipelines contain them. The arguments say which buffer,
    which origin and which bounds; `have` is where the input buffer is known to hold its stage. */
module LaplacianStages {
  import opened Buffers
  import opened Nests
  import opened LaplacianSpec

  method DownRows<P(0, !new)>(e: Kernels<P>, src: Window<P>, dst: Window<P>, n: nat, nest: Box,
                        ghost have: Box, ghost f: Stage<P>, ghost g: Stage<P>)
    requires src.buf.Valid() && CanStore(dst, n, nest) && dst.buf.data != src.buf.data
    requires Holds(src, n, have, f)
    requires have.Contains(Box(2 * nest.r0 - 1, 2 * nest.r1 + 2, nest.c0, nest.c1))
    requires DownRowLaw(e, f, g)
    modifies dst.buf.data
    ensures Holds(dst, n, nest, g)
  {
    FillBox(dst, n, nest,
            (k, i, j) requires src.buf.Valid() reads src.buf.data =>
              e.down(src.At(k, 2 * i - 1, j), src.At(k, 2 * i, j), src.At(k, 2 * i + 1, j), src.At(k, 2 * i + 2, j)),
            nest, g);
  }

  method DownCols<P(0, !new)>(e: Kernels<P>, src: Window<P>, dst: Window<P>, n: nat, nest: Box,
                        ghost have: Box, ghost f: Stage<P>, ghost g: Stage<P>)
    requires src.buf.Valid() && CanStore(dst, n, nest) && dst.buf.data != src.buf.data
    requires Holds(src, n, have, f)
    requires have.Contains(Box(nest.r0, nest.r1, 2 * nest.c0 - 1, 2 * nest.c1 + 2))
    requires DownColLaw(e, f, g)
    modifies dst.buf.data
    ensures Holds(dst, n, nest, g)
    ensures forall k, i, j {:trigger dst.At(k, i, j)} ::
              !(0 <= k < n && nest.Has(i, j)) ==> dst.At(k, i, j) == old(dst.At(k, i, j))
  {
    FillBox(dst, n, nest,
            (k, i, j) requires src.buf.Valid() reads src.buf.data =>
              e.down(src.At(k, i, 2 * j - 1), src.At(k, i, 2 * j), src.At(k, i, 2 * j + 1), src.At(k, i, 2 * j + 2)),
            nest, g);
  }

  /** the coarse indices that upsampling reads for fine indices lo .. hi */
  function CoarseLo(lo: int): int { (lo + 1) / 2 - 1 }

  function CoarseHi(hi: int): int { (hi + 1) / 2 }

  lemma CoarseRange(lo: int, hi: int)
    ensures forall n {:trigger Far(n)} :: lo <= n <= hi ==> CoarseLo(lo) <= Far(n) <= CoarseHi(hi)
    ensures forall n {:trigger n / 2} :: lo <= n <= hi ==> CoarseLo(lo) <= n / 2 <= CoarseHi(hi)
  {
  }

  /** Upsampling along rows is two nests, over the even and over the odd rows; each may be skipped. */
  datatype RowNests = RowNests(withEven: bool, even: Loop, withOdd: bool, odd: Loop) {
    ghost predicate Ok() {
      even.step == odd.step == 2 && even.lo % 2 == 0 && odd.lo % 2 == 1
    }

    ghost predicate Visits(i: int) {
      (withEven && even.Visits(i)) || (withOdd && odd.Visits(i))
    }
  }

  method UpEvenRows<P(0, !new)>(e: Kernels<P>, src: Window<P>, dst: Window<P>, n: nat, rows: Loop, c0: int, c1: int,
                          ghost box: Box, ghost have: Box, ghost f: Stage<P>, ghost g: Stage<P>)
    requires src.buf.Valid() && CanStore(dst, n, box) && dst.buf.data != src.buf.data
    requires rows.step == 2 && rows.lo % 2 == 0
    requires forall i :: rows.Visits(i) ==> box.r0 <= i <= box.r1
    requires box.c0 == c0 && box.c1 == c1
    requires Holds(src, n, have, f) && have.Contains(Box(CoarseLo(box.r0), CoarseHi(box.r1), c0, c1))
    requires UpRowLaw(e, f, g)
    modifies dst.buf.data
    ensures forall k, i, j {:trigger dst.At(k, i, j)} ::
              0 <= k < n && rows.Visits(i) && c0 <= j <= c1 ==> dst.At(k, i, j) == g(k, i, j)
    ensures forall k, i, j {:trigger dst.At(k, i, j)} ::
              !(0 <= k < n && rows.Visits(i) && c0 <= j <= c1) ==> dst.At(k, i, j) == old(dst.At(k, i, j))
  {
    CoarseRange(box.r0, box.r1);
    Fill(dst, n, rows, Each(c0, c1),
         (k, i, j) requires src.buf.Valid() reads src.buf.data => e.mix(src.At(k, i / 2 - 1, j), src.At(k, i / 2, j)),
         box, g);
  }

  method UpOddRows<P(0, !new)>(e: Kernels<P>, src: Window<P>, dst: Window<P>, n: nat, rows: Loop, c0: int, c1: int,
                         ghost box: Box, ghost have: Box, ghost f: Stage<P>, ghost g: Stage<P>)
    requires src.buf.Valid() && CanStore(dst, n, box) && dst.buf.data != src.buf.data
    requires rows.step == 2 && rows.lo % 2 == 1
    requires forall i :: rows.Visits(i) ==> box.r0 <= i <= box.r1
    requires box.c0 == c0 && box.c1 == c1
    requires Holds(src, n, have, f) && have.Contains(Box(CoarseLo(box.r0), CoarseHi(box.r1), c0, c1))
    requires UpRowLaw(e, f, g)
    modifies dst.buf.data
    ensures forall k, i, j {:trigger dst.At(k, i, j)} ::
              0 <= k < n && rows.Visits(i) && c0 <= j <= c1 ==> dst.At(k, i, j) == g(k, i, j)
    ensures forall k, i, j {:trigger dst.At(k, i, j)} ::
              !(0 <= k < n && rows.Visits(i) && c0 <= j <= c1) ==> dst.At(k, i, j) == old(dst.At(k, i, j))
  {
    CoarseRange(box.r0, box.r1);
    Fill(dst, n, rows, Each(c0, c1),
         (k, i, j) requires src.buf.Valid() reads src.buf.data => e.mix(src.At(k, i / 2 + 1, j), src.At(k, i / 2, j)),
         box, g);
  }

  /** Together the two nests have to visit exactly the rows of `box`. */
  method UpRows<P(0, !new)>(e: Kernels<P>, src: Window<P>, dst: Window<P>, n: nat, rows: RowNests, c0: int, c1: int,
                      ghost box: Box, ghost have: Box, ghost f: Stage<P>, ghost g: Stage<P>)
    requires src.buf.Valid() && CanStore(dst, n, box) && dst.buf.data != src.buf.data
    requires rows.Ok() && forall i :: rows.Visits(i) <==> box.r0 <= i <= box.r1
    requires box.c0 == c0 && box.c1 == c1
    requires Holds(src, n, have, f) && have.Contains(Box(CoarseLo(box.r0), CoarseHi(box.r1), c0, c1))
    requires UpRowLaw(e, f, g)
    modifies dst.buf.data
    ensures Holds(dst, n, box, g)
    ensures forall k, i, j {:trigger dst.At(k, i, j)} ::
              !(0 <= k < n && box.Has(i, j)) ==> dst.At(k, i, j) == old(dst.At(k, i, j))
  {
    if rows.withEven {
      assert forall i :: rows.even.Visits(i) ==> rows.Visits(i);
      UpEvenRows(e, src, dst, n, rows.even, c0, c1, box, have, f, g);
    }
    if rows.withOdd {
      assert forall i :: rows.odd.Visits(i) ==> rows.Visits(i);
      UpOddRows(e, src, dst, n, rows.odd, c0, c1, box, have, f, g);
    }
    forall k, i, j | 0 <= k < n && box.Has(i, j) ensures dst.At(k, i, j) == g(k, i, j) {
      assert rows.Visits(i);
    }
  }

  /** a Laplacian level: fine pixel minus upsampled coarse pixel */
  method Details<P(0, !new)>(e: Kernels<P>, fine: Window<P>, ux: Window<P>, dst: Window<P>, n: nat, nest: Box,
                       ghost haveFine: Box, ghost haveUx: Box, ghost f: Stage<P>, ghost u: Stage<P>, ghost g: Stage<P>)
    requires fine.buf.Valid() && ux.buf.Valid() && CanStore(dst, n, nest)
    requires dst.buf.data != fine.buf.data && dst.buf.data != ux.buf.data
    requires Holds(fine, n, haveFine, f) && haveFine.Contains(nest)
    requires Holds(ux, n, haveUx, u)
    requires haveUx.Contains(Box(nest.r0, nest.r1, CoarseLo(nest.c0), CoarseHi(nest.c1)))
    requires DetailLaw(e, f, u, g)
    modifies dst.buf.data
    ensures Holds(dst, n, nest, g)
  {
    CoarseRange(nest.c0, nest.c1);
    FillBox(dst, n, nest,
            (k, i, j) requires fine.buf.Valid() && ux.buf.Valid() reads fine.buf.data, ux.buf.data =>
              e.sub(fine.At(k, i, j), e.mix(ux.At(k, i, Far(j)), ux.At(k, i, j / 2))),
            nest, g);
  }

  /** an output Laplacian level: the two intensity planes around the input pixel, interpolated */
  method PickPlanes<P(0, !new)>(e: Kernels<P>, input: Window<P>, planes: Window<P>, dst: Window<P>, nest: Box,
                          ghost haveIn: Box, ghost havePlanes: Box, ghost f: Stage<P>, ghost u: Stage<P>, ghost g: Stage<P>)
    requires input.buf.Valid() && planes.buf.Valid() && CanStore(dst, 1, nest)
    requires dst.buf.data != input.buf.data && dst.buf.data != planes.buf.data
    requires Holds(input, 1, haveIn, f) && haveIn.Contains(nest)
    requires Holds(planes, 4, havePlanes, u) && havePlanes.Contains(nest)
    requires forall v :: 0 <= e.level(v) <= 2
    requires PickLaw(e, f, u, g)
    modifies dst.buf.data
    ensures Holds(dst, 1, nest, g)
  {
    FillBox(dst, 1, nest,
            (k, i, j) requires input.buf.Valid() && planes.buf.Valid() reads input.buf.data, planes.buf.data =>
              var v := input.At(0, i, j);
              e.pick(v, planes.At(e.level(v), i, j), planes.At(e.level(v) + 1, i, j)),
            nest, g);
  }

  /** collapsing one level: output Laplacian pixel plus upsampled coarse output pixel */
  method Collapse<P(0, !new)>(e: Kernels<P>, outL: Window<P>, ux: Window<P>, dst: Window<P>, nest: Box,
                        ghost haveL: Box, ghost haveUx: Box, ghost f: Stage<P>, ghost u: Stage<P>, ghost g: Stage<P>)
    requires outL.buf.Valid() && ux.buf.Valid() && CanStore(dst, 1, nest)
    requires dst.buf.data != outL.buf.data && dst.buf.data != ux.buf.data
    requires Holds(outL, 1, haveL, f) && haveL.Contains(nest)
    requires Holds(ux, 1, haveUx, u)
    requires haveUx.Contains(Box(nest.r0, nest.r1, CoarseLo(nest.c0), CoarseHi(nest.c1)))
    requires CollapseLaw(e, f, u, g)
    modifies dst.buf.data
    ensures Holds(dst, 1, nest, g)
    ensures forall k, i, j {:trigger dst.At(k, i, j)} ::
              !(k == 0 && nest.Has(i, j)) ==> dst.At(k, i, j) == old(dst.At(k, i, j))
  {
    CoarseRange(nest.c0, nest.c1);
    FillBox(dst, 1, nest,
            (k, i, j) requires outL.buf.Valid() && ux.buf.Valid() reads outL.buf.data, ux.buf.data =>
              e.add(outL.At(0, i, j), e.mix(ux.At(0, i, Far(j)), ux.At(0, i, j / 2))),
            nest, g);
  }
}
