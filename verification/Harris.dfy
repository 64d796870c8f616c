/** The Harris corner response as a function of the image. */
module HarrisSpec {
  import opened Arithmetic
  import opened Buffers

  /** A 3 x 3 stencil's expression, rows first. */
  type Nine<!P> = (P, P, P, P, P, P, P, P, P) -> P

  datatype Kernels<!P> = Kernels(
    grey: (P, P, P) -> P,
    dx: Nine<P>,
    dy: Nine<P>,
    mul: (P, P) -> P,
    sum: Nine<P>,
    det: (P, P, P) -> P,      // Sxx, Syy, Sxy
    trace: (P, P) -> P,       // Sxx, Syy
    respond: (P, P) -> P)     // det, trace

  function Stencil<P>(op: Nine<P>, f: Stage<P>, i: int, j: int): P {
    op(f(0, i - 1, j - 1), f(0, i - 1, j), f(0, i - 1, j + 1), f(0, i, j - 1), f(0, i, j), f(0, i, j + 1),
       f(0, i + 1, j - 1), f(0, i + 1, j), f(0, i + 1, j + 1))
  }

  ghost predicate StencilLaw<P(!new)>(op: Nine<P>, f: Stage<P>, g: Stage<P>) {
    forall i, j {:trigger g(0, i, j)} :: g(0, i, j) == Stencil(op, f, i, j)
  }

  ghost predicate PairLaw<P(!new)>(op: (P, P) -> P, f: Stage<P>, g: Stage<P>, h: Stage<P>) {
    forall i, j {:trigger h(0, i, j)} :: h(0, i, j) == op(f(0, i, j), g(0, i, j))
  }

  ghost predicate DetLaw<P(!new)>(e: Kernels<P>, xx: Stage<P>, yy: Stage<P>, xy: Stage<P>, h: Stage<P>) {
    forall i, j {:trigger h(0, i, j)} :: h(0, i, j) == e.det(xx(0, i, j), yy(0, i, j), xy(0, i, j))
  }

  ghost predicate GreyLaw<P(!new)>(e: Kernels<P>, rgb: Stage<P>, g: Stage<P>) {
    forall i, j {:trigger g(0, i, j)} :: g(0, i, j) == e.grey(rgb(0, i, j), rgb(1, i, j), rgb(2, i, j))
  }

  datatype Stages<!P> = Stages(gray: Stage<P>, ix: Stage<P>, iy: Stage<P>, ixx: Stage<P>, iyy: Stage<P>, ixy: Stage<P>,
                               sxx: Stage<P>, syy: Stage<P>, sxy: Stage<P>, det: Stage<P>, trace: Stage<P>, harris: Stage<P>)

  ghost predicate Lawful<P(!new)>(e: Kernels<P>, s: Stages<P>) {
    && StencilLaw(e.dx, s.gray, s.ix) && StencilLaw(e.dy, s.gray, s.iy)
    && PairLaw(e.mul, s.ix, s.ix, s.ixx) && PairLaw(e.mul, s.iy, s.iy, s.iyy) && PairLaw(e.mul, s.ix, s.iy, s.ixy)
    && StencilLaw(e.sum, s.ixx, s.sxx) && StencilLaw(e.sum, s.iyy, s.syy) && StencilLaw(e.sum, s.ixy, s.sxy)
    && DetLaw(e, s.sxx, s.syy, s.sxy, s.det) && PairLaw(e.trace, s.sxx, s.syy, s.trace)
    && PairLaw(e.respond, s.det, s.trace, s.harris)
  }

  lemma MakeStencil<P(!new)>(op: Nine<P>, f: Stage<P>) returns (g: Stage<P>)
    ensures StencilLaw(op, f, g)
  {
    g := (k, i, j) => Stencil(op, f, i, j);
  }

  lemma MakePair<P(!new)>(op: (P, P) -> P, f: Stage<P>, g: Stage<P>) returns (h: Stage<P>)
    ensures PairLaw(op, f, g, h)
  {
    h := (k, i, j) => op(f(0, i, j), g(0, i, j));
  }

  lemma MakeDet<P(!new)>(e: Kernels<P>, xx: Stage<P>, yy: Stage<P>, xy: Stage<P>) returns (h: Stage<P>)
    ensures DetLaw(e, xx, yy, xy, h)
  {
    h := (k, i, j) => e.det(xx(0, i, j), yy(0, i, j), xy(0, i, j));
  }

  /** Every grey image has such a family. */
  lemma MakeStages<P(!new)>(e: Kernels<P>, gray: Stage<P>) returns (s: Stages<P>)
    ensures Lawful(e, s) && s.gray == gray
  {
    var ix := MakeStencil(e.dx, gray);
    var iy := MakeStencil(e.dy, gray);
    var ixx := MakePair(e.mul, ix, ix);
    var iyy := MakePair(e.mul, iy, iy);
    var ixy := MakePair(e.mul, ix, iy);
    var sxx := MakeStencil(e.sum, ixx);
    var syy := MakeStencil(e.sum, iyy);
    var sxy := MakeStencil(e.sum, ixy);
    var det := MakeDet(e, sxx, syy, sxy);
    var trace := MakePair(e.trace, sxx, syy);
    var harris := MakePair(e.respond, det, trace);
    s := Stages(gray, ix, iy, ixx, iyy, ixy, sxx, syy, sxy, det, trace, harris);
  }

  lemma MakeGrey<P(!new)>(e: Kernels<P>, rgb: Stage<P>) returns (g: Stage<P>)
    ensures GreyLaw(e, rgb, g)
  {
    g := (k, i, j) => e.grey(rgb(0, i, j), rgb(1, i, j), rgb(2, i, j));
  }

  // The source's expressions. harris_polymage.cpp of the video demo also scales the response.

  function Grey<P>(ar: Arith<P>, b: P, g: P, r: P): P {
    ar.div(ar.add(ar.add(ar.mul(b, ar.lit(0.114)), ar.mul(g, ar.lit(0.587))), ar.mul(r, ar.lit(0.299))), ar.lit(255.0))
  }

  function Derivative<P>(ar: Arith<P>, a: P, b: P, c: P, d: P, f: P, g: P): P {
    var twelfth, sixth := ar.lit(0.0833333333333), ar.lit(0.166666666667);
    ar.add(ar.add(ar.add(ar.add(ar.add(ar.mul(a, ar.neg(twelfth)), ar.mul(b, twelfth)), ar.mul(c, ar.neg(sixth))),
                         ar.mul(d, sixth)), ar.mul(f, ar.neg(twelfth))), ar.mul(g, twelfth))
  }

  function Sum9<P>(ar: Arith<P>, a: P, b: P, c: P, d: P, f: P, g: P, h: P, i: P, j: P): P {
    ar.add(ar.add(ar.add(ar.add(ar.add(ar.add(ar.add(ar.add(a, b), c), d), f), g), h), i), j)
  }

  function Respond<P>(ar: Arith<P>, scaled: bool, det: P, trace: P): P {
    var r := ar.sub(det, ar.mul(ar.mul(ar.lit(0.04), trace), trace));
    if scaled then ar.mul(ar.mul(r, ar.lit(65536.0)), ar.lit(256.0)) else r
  }

  function SourceKernels<P>(ar: Arith<P>, scaled: bool): Kernels<P> {
    Kernels(
      (b, g, r) => Grey(ar, b, g, r),
      (a, b, c, d, f, g, h, i, j) => Derivative(ar, a, h, b, i, c, j),
      (a, b, c, d, f, g, h, i, j) => Derivative(ar, a, c, d, g, h, j),
      ar.mul,
      (a, b, c, d, f, g, h, i, j) => Sum9(ar, a, b, c, d, f, g, h, i, j),
      (xx, yy, xy) => ar.sub(ar.mul(xx, yy), ar.mul(xy, xy)),
      ar.add,
      (det, trace) => Respond(ar, scaled, det, trace))
  }
}

/** Over the reals, the response depends on differences of grey values only. */
module HarrisBrightness {
  import opened Arithmetic
  import opened Buffers
  import opened HarrisSpec

  /** The weights of grey add up to 1, those of a derivative to 0. */
  lemma GreyShifts(exp: real -> real, b: real, g: real, r: real, d: real)
    ensures Grey(Reals(exp), b + d, g + d, r + d) == Grey(Reals(exp), b, g, r) + d / 255.0
  {
  }

  lemma DerivativeKept(exp: real -> real, a: real, b: real, c: real, f: real, g: real, h: real,
                       a': real, b': real, c': real, f': real, g': real, h': real, d: real)
    requires a' == a + d && b' == b + d && c' == c + d && f' == f + d && g' == g + d && h' == h + d
    ensures Derivative(Reals(exp), a', b', c', f', g', h') == Derivative(Reals(exp), a, b, c, f, g, h)
  {
  }

  lemma RowSlopeIs<P>(ar: Arith<P>, scaled: bool, f: Stage<P>, i: int, j: int)
    ensures Stencil(SourceKernels(ar, scaled).dx, f, i, j) ==
            Derivative(ar, f(0, i - 1, j - 1), f(0, i + 1, j - 1), f(0, i - 1, j), f(0, i + 1, j), f(0, i - 1, j + 1), f(0, i + 1, j + 1))
  {
  }

  lemma ColSlopeIs<P>(ar: Arith<P>, scaled: bool, f: Stage<P>, i: int, j: int)
    ensures Stencil(SourceKernels(ar, scaled).dy, f, i, j) ==
            Derivative(ar, f(0, i - 1, j - 1), f(0, i - 1, j + 1), f(0, i, j - 1), f(0, i, j + 1), f(0, i + 1, j - 1), f(0, i + 1, j + 1))
  {
  }

  lemma SlopesKept(exp: real -> real, scaled: bool, f: Stage<real>, g: Stage<real>, d: real, i: int, j: int)
    requires forall u, v {:trigger g(0, u, v)} :: g(0, u, v) == f(0, u, v) + d
    ensures Stencil(SourceKernels(Reals(exp), scaled).dx, g, i, j) == Stencil(SourceKernels(Reals(exp), scaled).dx, f, i, j)
    ensures Stencil(SourceKernels(Reals(exp), scaled).dy, g, i, j) == Stencil(SourceKernels(Reals(exp), scaled).dy, f, i, j)
  {
    RowSlopeIs(Reals(exp), scaled, f, i, j);
    RowSlopeIs(Reals(exp), scaled, g, i, j);
    ColSlopeIs(Reals(exp), scaled, f, i, j);
    ColSlopeIs(Reals(exp), scaled, g, i, j);
    DerivativeKept(exp, f(0, i - 1, j - 1), f(0, i + 1, j - 1), f(0, i - 1, j), f(0, i + 1, j), f(0, i - 1, j + 1), f(0, i + 1, j + 1),
                   g(0, i - 1, j - 1), g(0, i + 1, j - 1), g(0, i - 1, j), g(0, i + 1, j), g(0, i - 1, j + 1), g(0, i + 1, j + 1), d);
    DerivativeKept(exp, f(0, i - 1, j - 1), f(0, i - 1, j + 1), f(0, i, j - 1), f(0, i, j + 1), f(0, i + 1, j - 1), f(0, i + 1, j + 1),
                   g(0, i - 1, j - 1), g(0, i - 1, j + 1), g(0, i, j - 1), g(0, i, j + 1), g(0, i + 1, j - 1), g(0, i + 1, j + 1), d);
  }

  /** From equal slopes, equal responses. */
  lemma ResponseKept<P(!new)>(e: Kernels<P>, s: Stages<P>, t: Stages<P>)
    requires Lawful(e, s) && Lawful(e, t)
    requires forall i, j :: t.ix(0, i, j) == s.ix(0, i, j) && t.iy(0, i, j) == s.iy(0, i, j)
    ensures forall i, j :: t.harris(0, i, j) == s.harris(0, i, j)
  {
    assert forall i, j {:trigger t.ixx(0, i, j)} :: t.ixx(0, i, j) == s.ixx(0, i, j);
    assert forall i, j {:trigger t.iyy(0, i, j)} :: t.iyy(0, i, j) == s.iyy(0, i, j);
    assert forall i, j {:trigger t.ixy(0, i, j)} :: t.ixy(0, i, j) == s.ixy(0, i, j);
    forall i, j ensures t.harris(0, i, j) == s.harris(0, i, j) {
      assert t.sxx(0, i, j) == s.sxx(0, i, j) && t.syy(0, i, j) == s.syy(0, i, j) && t.sxy(0, i, j) == s.sxy(0, i, j);
      assert t.det(0, i, j) == s.det(0, i, j) && t.trace(0, i, j) == s.trace(0, i, j);
    }
  }

  /** Adding d to every sample of the colour image changes no response. */
  lemma BrightnessKept(exp: real -> real, scaled: bool, f: Stage<real>, g: Stage<real>, d: real, s: Stages<real>, t: Stages<real>)
    requires Lawful(SourceKernels(Reals(exp), scaled), s) && GreyLaw(SourceKernels(Reals(exp), scaled), f, s.gray)
    requires Lawful(SourceKernels(Reals(exp), scaled), t) && GreyLaw(SourceKernels(Reals(exp), scaled), g, t.gray)
    requires forall k, i, j {:trigger g(k, i, j)} :: g(k, i, j) == f(k, i, j) + d
    ensures forall i, j :: t.harris(0, i, j) == s.harris(0, i, j)
  {
    forall i, j ensures t.gray(0, i, j) == s.gray(0, i, j) + d / 255.0 {
      GreyShifts(exp, f(0, i, j), f(1, i, j), f(2, i, j), d);
    }
    forall i, j ensures t.ix(0, i, j) == s.ix(0, i, j) && t.iy(0, i, j) == s.iy(0, i, j) {
      SlopesKept(exp, scaled, s.gray, t.gray, d / 255.0, i, j);
    }
    ResponseKept(SourceKernels(Reals(exp), scaled), s, t);
  }
}

/** Over the reals, the response in one formula, and what it says of a ramp. */
module HarrisFormula {
  import opened Arithmetic
  import opened Buffers
  import opened HarrisSpec

  /** how fast f grows along rows, and along columns */
  function SlopeDown(f: Stage<real>, i: int, j: int): real {
    0.0833333333333 * (f(0, i + 1, j - 1) - f(0, i - 1, j - 1) + f(0, i + 1, j + 1) - f(0, i - 1, j + 1))
    + 0.166666666667 * (f(0, i + 1, j) - f(0, i - 1, j))
  }

  function SlopeRight(f: Stage<real>, i: int, j: int): real {
    0.0833333333333 * (f(0, i - 1, j + 1) - f(0, i - 1, j - 1) + f(0, i + 1, j + 1) - f(0, i + 1, j - 1))
    + 0.166666666667 * (f(0, i, j + 1) - f(0, i, j - 1))
  }

  /** determinant minus 0.04 times the squared trace of a symmetric matrix */
  function Corner(xx: real, yy: real, xy: real): real {
    (xx * yy - xy * xy) - 0.04 * ((xx + yy) * (xx + yy))
  }

  function Scale(scaled: bool): real { if scaled then 16777216.0 else 1.0 }

  type Plane = (int, int) -> real

  function Product(p: Plane, q: Plane): Plane { (u, v) => p(u, v) * q(u, v) }

  /** the sum over the 3 x 3 pixels around (i, j) */
  function NineSum(r: Plane, i: int, j: int): real {
    r(i - 1, j - 1) + r(i - 1, j) + r(i - 1, j + 1) + r(i, j - 1) + r(i, j) + r(i, j + 1) + r(i + 1, j - 1) + r(i + 1, j) + r(i + 1, j + 1)
  }

  function Moment(p: Plane, q: Plane, i: int, j: int): real { NineSum(Product(p, q), i, j) }

  /** The image's samples are blue, green, red. */
  lemma GreyWeights(exp: real -> real, scaled: bool, f: Stage<real>, g: Stage<real>, i: int, j: int)
    requires GreyLaw(SourceKernels(Reals(exp), scaled), f, g)
    ensures 255000.0 * g(0, i, j) == 114.0 * f(0, i, j) + 587.0 * f(1, i, j) + 299.0 * f(2, i, j)
  {
  }

  lemma DerivativeIs(exp: real -> real, a: real, b: real, c: real, d: real, f: real, g: real)
    ensures Derivative(Reals(exp), a, b, c, d, f, g) == 0.0833333333333 * (b - a + g - f) + 0.166666666667 * (d - c)
  {
  }

  lemma SlopesAre(exp: real -> real, scaled: bool, s: Stages<real>, i: int, j: int)
    requires StencilLaw(SourceKernels(Reals(exp), scaled).dx, s.gray, s.ix) && StencilLaw(SourceKernels(Reals(exp), scaled).dy, s.gray, s.iy)
    ensures s.ix(0, i, j) == SlopeDown(s.gray, i, j) && s.iy(0, i, j) == SlopeRight(s.gray, i, j)
  {
    var f := s.gray;
    DerivativeIs(exp, f(0, i - 1, j - 1), f(0, i + 1, j - 1), f(0, i - 1, j), f(0, i + 1, j), f(0, i - 1, j + 1), f(0, i + 1, j + 1));
    DerivativeIs(exp, f(0, i - 1, j - 1), f(0, i - 1, j + 1), f(0, i, j - 1), f(0, i, j + 1), f(0, i + 1, j - 1), f(0, i + 1, j + 1));
  }

  lemma NineIs(exp: real -> real, scaled: bool, f: Stage<real>, sum: Stage<real>, i: int, j: int, r: Plane)
    requires StencilLaw(SourceKernels(Reals(exp), scaled).sum, f, sum)
    requires forall u, v {:trigger f(0, u, v)} :: f(0, u, v) == r(u, v)
    ensures sum(0, i, j) == NineSum(r, i, j)
  {
    assert sum(0, i, j) == Stencil(SourceKernels(Reals(exp), scaled).sum, f, i, j);
  }

  lemma SumIs(exp: real -> real, scaled: bool, f: Stage<real>, g: Stage<real>, fg: Stage<real>, sum: Stage<real>, i: int, j: int,
              p: Plane, q: Plane)
    requires PairLaw(SourceKernels(Reals(exp), scaled).mul, f, g, fg) && StencilLaw(SourceKernels(Reals(exp), scaled).sum, fg, sum)
    requires forall u, v {:trigger f(0, u, v)} {:trigger g(0, u, v)} :: f(0, u, v) == p(u, v) && g(0, u, v) == q(u, v)
    ensures sum(0, i, j) == Moment(p, q, i, j)
  {
    var r := Product(p, q);
    forall u, v ensures fg(0, u, v) == r(u, v) {
      assert fg(0, u, v) == f(0, u, v) * g(0, u, v);
    }
    NineIs(exp, scaled, fg, sum, i, j, r);
  }

  lemma CornerIs(exp: real -> real, scaled: bool, xx: real, yy: real, xy: real)
    ensures var e := SourceKernels(Reals(exp), scaled); e.respond(e.det(xx, yy, xy), e.trace(xx, yy)) == Scale(scaled) * Corner(xx, yy, xy)
  {
    var t := xx + yy;
    var d := xx * yy - xy * xy;
    assert 0.04 * t * t == 0.04 * (t * t);
  }

  lemma ResponseIs(exp: real -> real, scaled: bool, s: Stages<real>, i: int, j: int)
    requires DetLaw(SourceKernels(Reals(exp), scaled), s.sxx, s.syy, s.sxy, s.det) && PairLaw(SourceKernels(Reals(exp), scaled).trace, s.sxx, s.syy, s.trace)
    requires PairLaw(SourceKernels(Reals(exp), scaled).respond, s.det, s.trace, s.harris)
    ensures s.harris(0, i, j) == Scale(scaled) * Corner(s.sxx(0, i, j), s.syy(0, i, j), s.sxy(0, i, j))
  {
    CornerIs(exp, scaled, s.sxx(0, i, j), s.syy(0, i, j), s.sxy(0, i, j));
  }

  /** The response of a grey image with slopes p and q, for both programs. */
  lemma FormulaHolds(exp: real -> real, scaled: bool, s: Stages<real>, p: Plane, q: Plane, i: int, j: int)
    requires Lawful(SourceKernels(Reals(exp), scaled), s)
    requires forall u, v {:trigger p(u, v)} :: p(u, v) == SlopeDown(s.gray, u, v)
    requires forall u, v {:trigger q(u, v)} :: q(u, v) == SlopeRight(s.gray, u, v)
    ensures s.harris(0, i, j) == Scale(scaled) * Corner(Moment(p, p, i, j), Moment(q, q, i, j), Moment(p, q, i, j))
  {
    forall u, v ensures s.ix(0, u, v) == p(u, v) && s.iy(0, u, v) == q(u, v) {
      SlopesAre(exp, scaled, s, u, v);
    }
    SumIs(exp, scaled, s.ix, s.ix, s.ixx, s.sxx, i, j, p, p);
    SumIs(exp, scaled, s.iy, s.iy, s.iyy, s.syy, i, j, q, q);
    SumIs(exp, scaled, s.ix, s.iy, s.ixy, s.sxy, i, j, p, q);
    ResponseIs(exp, scaled, s, i, j);
  }

  predicate RampAt(f: Stage<real>, a: real, b: real, c: real, u: int, v: int) {
    f(0, u, v) == a + u as real * b + v as real * c
  }

  /** f is a plane that grows by b a row and by c a column. */
  ghost predicate Ramp(f: Stage<real>, a: real, b: real, c: real) {
    forall u, v :: RampAt(f, a, b, c, u, v)
  }

  lemma RampSlope(f: Stage<real>, a: real, b: real, c: real, i: int, j: int)
    requires Ramp(f, a, b, c)
    ensures SlopeDown(f, i, j) == 0.6666666666672 * b && SlopeRight(f, i, j) == 0.6666666666672 * c
  {
    var x, y := i as real, j as real;
    assert RampAt(f, a, b, c, i - 1, j - 1) && RampAt(f, a, b, c, i - 1, j) && RampAt(f, a, b, c, i - 1, j + 1) && RampAt(f, a, b, c, i, j - 1);
    assert RampAt(f, a, b, c, i, j + 1) && RampAt(f, a, b, c, i + 1, j - 1) && RampAt(f, a, b, c, i + 1, j) && RampAt(f, a, b, c, i + 1, j + 1);
    assert (i + 1) as real == x + 1.0 && (i - 1) as real == x - 1.0 && (j + 1) as real == y + 1.0 && (j - 1) as real == y - 1.0;
    assert (x + 1.0) * b == x * b + b && (x - 1.0) * b == x * b - b && (y + 1.0) * c == y * c + c && (y - 1.0) * c == y * c - c;
  }

  /** p and q are the slopes of f, which are x and y everywhere. */
  ghost predicate FlatPlanes(f: Stage<real>, p: Plane, q: Plane, x: real, y: real) {
    && (forall u, v {:trigger p(u, v)} :: p(u, v) == x && SlopeDown(f, u, v) == x)
    && (forall u, v {:trigger q(u, v)} :: q(u, v) == y && SlopeRight(f, u, v) == y)
  }

  lemma RampSlopes(f: Stage<real>, a: real, b: real, c: real, x: real, y: real) returns (p: Plane, q: Plane)
    requires Ramp(f, a, b, c) && x == 0.6666666666672 * b && y == 0.6666666666672 * c
    ensures FlatPlanes(f, p, q, x, y)
  {
    p, q := (u, v) => x, (u, v) => y;
    forall u, v ensures SlopeDown(f, u, v) == x && SlopeRight(f, u, v) == y {
      RampSlope(f, a, b, c, u, v);
    }
  }

  lemma MomentFlat(p: Plane, q: Plane, x: real, y: real, i: int, j: int) returns (m: real)
    requires (forall u, v {:trigger p(u, v)} :: p(u, v) == x) && (forall u, v {:trigger q(u, v)} :: q(u, v) == y)
    ensures m == Moment(p, q, i, j) && m == 9.0 * (x * y)
  {
    m := x * y;
    forall u, v ensures Product(p, q)(u, v) == m {
    }
    m := 9.0 * m;
  }

  /** the response to slopes x and y everywhere */
  lemma FlatSlopes(exp: real -> real, scaled: bool, s: Stages<real>, p: Plane, q: Plane, x: real, y: real, i: int, j: int)
    returns (xx: real, yy: real, xy: real, r: real)
    requires Lawful(SourceKernels(Reals(exp), scaled), s)
    requires FlatPlanes(s.gray, p, q, x, y)
    ensures FlatMoments(x, y, xx, yy, xy) && r == Corner(xx, yy, xy) && s.harris(0, i, j) == Scale(scaled) * r
  {
    xx := MomentFlat(p, p, x, x, i, j);
    yy := MomentFlat(q, q, y, y, i, j);
    xy := MomentFlat(p, q, x, y, i, j);
    FormulaHolds(exp, scaled, s, p, q, i, j);
    r := Corner(xx, yy, xy);
  }

  predicate FlatMoments(x: real, y: real, xx: real, yy: real, xy: real) {
    xx == 9.0 * (x * x) && yy == 9.0 * (y * y) && xy == 9.0 * (x * y)
  }

  /** That matrix is singular. */
  lemma RampCorner(x: real, y: real, xx: real, yy: real, xy: real, r: real) returns (trace: real)
    requires FlatMoments(x, y, xx, yy, xy) && r == Corner(xx, yy, xy)
    ensures trace == 9.0 * (x * x) + 9.0 * (y * y) && r == -0.04 * (trace * trace)
  {
    var p, q, m := x * x, y * y, x * y;
    assert p * q == m * m;
    assert xx * yy == 81.0 * (p * q) && xy * xy == 81.0 * (m * m);
    trace := xx + yy;
  }

  lemma RampMoments(exp: real -> real, scaled: bool, s: Stages<real>, a: real, b: real, c: real, x: real, y: real, i: int, j: int)
    returns (xx: real, yy: real, xy: real, r: real)
    requires Lawful(SourceKernels(Reals(exp), scaled), s) && Ramp(s.gray, a, b, c) && x == 0.6666666666672 * b && y == 0.6666666666672 * c
    ensures FlatMoments(x, y, xx, yy, xy) && r == Corner(xx, yy, xy) && s.harris(0, i, j) == Scale(scaled) * r
  {
    var p, q := RampSlopes(s.gray, a, b, c, x, y);
    xx, yy, xy, r := FlatSlopes(exp, scaled, s, p, q, x, y, i, j);
  }

  /** A ramp has no corner: the response is -0.04 times the squared trace, scaled or not. */
  lemma RampResponse(exp: real -> real, scaled: bool, s: Stages<real>, a: real, b: real, c: real, x: real, y: real, i: int, j: int)
    returns (trace: real, r: real)
    requires Lawful(SourceKernels(Reals(exp), scaled), s) && Ramp(s.gray, a, b, c) && x == 0.6666666666672 * b && y == 0.6666666666672 * c
    ensures trace == 9.0 * (x * x) + 9.0 * (y * y) && r == -0.04 * (trace * trace)
    ensures s.harris(0, i, j) == Scale(scaled) * r
  {
    var xx, yy, xy;
    xx, yy, xy, r := RampMoments(exp, scaled, s, a, b, c, x, y, i, j);
    trace := RampCorner(x, y, xx, yy, xy, r);
  }
}
