/** The bilateral grid filter as a function of the grey image: histogram grid, three blurs, trilinear slice. */
module BilateralSpec {
  import opened Arithmetic
  import opened Buffers

  /** The pixel expressions of the loop nests; `SourceKernels` are those of the files. */
  datatype Kernels<!P> = Kernels(
    side: nat,                          // a grid cell accumulates side x side pixels
    zero: P,
    one: P,
    add: (P, P) -> P,
    bin: P -> int,                      // intensity bin of a pixel, 0 .. 12
    blur: (P, P, P, P, P) -> P,
    level: P -> int,                    // intensity level below a pixel, 0 .. 9
    slice: (int, int, P, P, P, P, P, P, P, P, P) -> P,  // row and column mod 8, pixel, four corners on the level
                                                        // below and on the level above
    normal: (P, P, P) -> P)             // weighted intensity, weight, pixel

  /** Grid values are two images of 15 bins and blurred ones two of 11, kept as 30 and 22 planes. Plane c * 15 + z
      of the grid is the sum over bin z of the intensities (c == 0) or of ones (c == 1). */
  function Plane(c: int, z: int): int { 15 * c + z }

  /** one sample accumulated into bin z of image c */
  function Accumulate<P>(e: Kernels<P>, c: int, z: int, old_: P, v: P): P {
    if e.bin(v) + 2 == z then e.add(old_, if c == 0 then v else e.one) else old_
  }

  /** bin z of grid cell (i, j) after a full rows of samples and b more */
  function Histogram<P>(e: Kernels<P>, f: Stage<P>, c: int, z: int, i: int, j: int, a: nat, b: nat): P
    decreases a, b
  {
    if b > 0 then Accumulate(e, c, z, Histogram(e, f, c, z, i, j, a, b - 1), f(0, -4 + a + 8 * i, -4 + 8 * j + b - 1))
    else if a > 0 then Histogram(e, f, c, z, i, j, a - 1, e.side)
    else e.zero
  }

  ghost predicate GridLaw<P(!new)>(e: Kernels<P>, f: Stage<P>, g: Stage<P>) {
    forall c, z, i, j {:trigger g(Plane(c, z), i, j)} :: 0 <= c <= 1 && 0 <= z <= 14 ==> g(Plane(c, z), i, j) == Histogram(e, f, c, z, i, j, e.side, 0)
  }

  function BlurZ<P>(e: Kernels<P>, f: Stage<P>, k: int, i: int, j: int): P {
    e.blur(f(Below(k), i, j), f(Below(k) + 1, i, j), f(Below(k) + 2, i, j), f(Below(k) + 3, i, j), f(Below(k) + 4, i, j))
  }

  /** the first of the five grid planes that blurred plane k is made of */
  function Below(k: int): int { if k < 11 then k else k + 4 }

  function BlurRows<P>(e: Kernels<P>, f: Stage<P>, k: int, i: int, j: int): P {
    e.blur(f(k, i - 2, j), f(k, i - 1, j), f(k, i, j), f(k, i + 1, j), f(k, i + 2, j))
  }

  function BlurCols<P>(e: Kernels<P>, f: Stage<P>, k: int, i: int, j: int): P {
    e.blur(f(k, i, j - 2), f(k, i, j - 1), f(k, i, j), f(k, i, j + 1), f(k, i, j + 2))
  }

  ghost predicate BlurZLaw<P(!new)>(e: Kernels<P>, f: Stage<P>, g: Stage<P>) {
    forall k, i, j {:trigger g(k, i, j)} :: g(k, i, j) == BlurZ(e, f, k, i, j)
  }

  ghost predicate BlurRowsLaw<P(!new)>(e: Kernels<P>, f: Stage<P>, g: Stage<P>) {
    forall k, i, j {:trigger g(k, i, j)} :: g(k, i, j) == BlurRows(e, f, k, i, j)
  }

  ghost predicate BlurColsLaw<P(!new)>(e: Kernels<P>, f: Stage<P>, g: Stage<P>) {
    forall k, i, j {:trigger g(k, i, j)} :: g(k, i, j) == BlurCols(e, f, k, i, j)
  }

  /** image c at pixel (i, j), between the eight grid values around it */
  function Slice<P>(e: Kernels<P>, v: P, f: Stage<P>, c: int, i: int, j: int): P {
    var z := 11 * c + e.level(v);
    e.slice(i % 8, j % 8, v,
            f(z, i / 8, j / 8), f(z, i / 8 + 1, j / 8), f(z, i / 8, j / 8 + 1), f(z, i / 8 + 1, j / 8 + 1),
            f(z + 1, i / 8, j / 8), f(z + 1, i / 8 + 1, j / 8), f(z + 1, i / 8, j / 8 + 1), f(z + 1, i / 8 + 1, j / 8 + 1))
  }

  ghost predicate SliceLaw<P(!new)>(e: Kernels<P>, gray: Stage<P>, f: Stage<P>, g: Stage<P>) {
    forall c, i, j {:trigger g(c, i, j)} :: g(c, i, j) == Slice(e, gray(0, i, j), f, c, i, j)
  }

  ghost predicate NormalLaw<P(!new)>(e: Kernels<P>, f: Stage<P>, gray: Stage<P>, g: Stage<P>) {
    forall i, j {:trigger g(0, i, j)} :: g(0, i, j) == e.normal(f(0, i, j), f(1, i, j), gray(0, i, j))
  }

  datatype Stages<!P> = Stages(gray: Stage<P>, grid: Stage<P>, blurz: Stage<P>, blurx: Stage<P>, blury: Stage<P>,
                               interpolated: Stage<P>, filtered: Stage<P>)

  ghost predicate Lawful<P(!new)>(e: Kernels<P>, s: Stages<P>) {
    && GridLaw(e, s.gray, s.grid) && BlurZLaw(e, s.grid, s.blurz) && BlurRowsLaw(e, s.blurz, s.blurx)
    && BlurColsLaw(e, s.blurx, s.blury) && SliceLaw(e, s.gray, s.blury, s.interpolated)
    && NormalLaw(e, s.interpolated, s.gray, s.filtered)
  }

  /** Every grey image has such a family. */
  lemma MakeStages<P(!new)>(e: Kernels<P>, gray: Stage<P>) returns (s: Stages<P>)
    ensures Lawful(e, s) && s.gray == gray
  {
    var grid := MakeGrid(e, gray);
    var blurz: Stage<P> := (k, i, j) => BlurZ(e, grid, k, i, j);
    var blurx: Stage<P> := (k, i, j) => BlurRows(e, blurz, k, i, j);
    var blury: Stage<P> := (k, i, j) => BlurCols(e, blurx, k, i, j);
    var interpolated: Stage<P> := (c, i, j) => Slice(e, gray(0, i, j), blury, c, i, j);
    s := Stages(gray, grid, blurz, blurx, blury, interpolated,
                (k, i, j) => e.normal(interpolated(0, i, j), interpolated(1, i, j), gray(0, i, j)));
  }

  lemma MakeGrid<P(!new)>(e: Kernels<P>, f: Stage<P>) returns (g: Stage<P>)
    ensures GridLaw(e, f, g)
  {
    g := (k, i, j) => if k < 15 then Histogram(e, f, 0, k, i, j, e.side, 0) else Histogram(e, f, 1, k - 15, i, j, e.side, 0);
    forall c, z, i, j | 0 <= c <= 1 && 0 <= z <= 14
      ensures g(Plane(c, z), i, j) == Histogram(e, f, c, z, i, j, e.side, 0)
    {
      assert c == 0 || c == 1;
    }
  }

  // The source's expressions.

  function Blur5<P>(ar: Arith<P>, a: P, b: P, c: P, d: P, f: P): P {
    ar.add(ar.add(ar.add(ar.add(a, ar.mul(ar.ofInt(4), b)), ar.mul(ar.ofInt(6), c)), ar.mul(ar.ofInt(4), d)), f)
  }

  function Lerp<P>(ar: Arith<P>, t: P, a: P, b: P): P {
    ar.add(a, ar.mul(t, ar.sub(b, a)))
  }

  function Eighth<P>(ar: Arith<P>, n: int): P {
    ar.div(ar.ofInt(n), ar.ofInt(8))
  }

  function Bilinear<P>(ar: Arith<P>, x: int, y: int, a00: P, a10: P, a01: P, a11: P): P {
    Lerp(ar, Eighth(ar, y), Lerp(ar, Eighth(ar, x), a00, a10), Lerp(ar, Eighth(ar, x), a01, a11))
  }

  function Level<P>(ar: Arith<P>, v: P): int {
    ar.toInt(ar.mul(v, ar.ofInt(10)))
  }

  function Between<P>(ar: Arith<P>, v: P): P {
    ar.sub(ar.mul(v, ar.ofInt(10)), ar.ofInt(Level(ar, v)))
  }

  function SourceKernels<P>(ar: Arith<P>): Kernels<P> {
    Kernels(
      9,
      ar.ofInt(0),
      ar.ofInt(1),
      ar.add,
      v => ar.toInt(ar.add(ar.mul(v, ar.ofInt(10)), ar.lit(0.5))),
      (a, b, c, d, f) => Blur5(ar, a, b, c, d, f),
      v => Level(ar, v),
      (x, y, v, a00, a10, a01, a11, b00, b10, b01, b11) =>
        Lerp(ar, Between(ar, v), Bilinear(ar, x, y, a00, a10, a01, a11), Bilinear(ar, x, y, b00, b10, b01, b11)),
      (sum, weight, v) => if ar.less(ar.ofInt(0), weight) then ar.div(sum, weight) else v)
  }
}
