/** What the local Laplacian filter computes over the reals, in plain arithmetic: flat images for all parameters, and the
    filters of its pyramids. */
module LaplacianValues {
  import opened Arithmetic
  import opened Buffers
  import opened LaplacianSpec
  import opened LaplacianPyramid
  import opened LaplacianEqual

  /** the detail boost at distance x from a plane's intensity, in units of a third */
  function Boost(exp: real -> real, alpha: real, x: real): real {
    alpha * x * exp(-(x * x) / 2.0)
  }

  /** tone v, seen from intensity k / 3 */
  function Toned(exp: real -> real, alpha: real, beta: real, k: int, v: real): real {
    var centre := k as real * 0.333333333333;
    beta * (v - centre) + centre + Boost(exp, alpha, ((v * 768.0).Floor - 256 * k) as real / 256.0)
  }

  /** between the tones seen from the two planes around v */
  function FlatTone(exp: real -> real, alpha: real, beta: real, v: real): real {
    var k := (3.0 * v).Floor;
    var w := 3.0 * v - k as real;
    Between(w, Toned(exp, alpha, beta, k, v), Toned(exp, alpha, beta, k + 1, v))
  }

  function Between(w: real, x: real, y: real): real { (1.0 - w) * x + w * y }

  ghost predicate Flat(f: Stage<real>, k: int, x: real) {
    forall i, j {:trigger f(k, i, j)} :: f(k, i, j) == x
  }

  lemma BoostIs(exp: real -> real, alpha: real, x: real, p: real, q: real, t: real)
    requires p == alpha * x && q == (-x) * x && t == exp(q / 2.0)
    ensures p * t == Boost(exp, alpha, x)
  {
    assert q == -(x * x);
  }

  lemma TableIs(exp: real -> real, alpha: real, n: int)
    ensures TableEntry(Reals(exp), alpha, n) == Boost(exp, alpha, n as real / 256.0)
  {
    var ar := Reals(exp);
    var x := ar.div(ar.ofInt(n), ar.lit(256.0));
    var p, q := ar.mul(alpha, x), ar.mul(ar.neg(x), x);
    var t := ar.exp(ar.div(q, ar.lit(2.0)));
    BoostIs(exp, alpha, x, p, q, t);
  }

  lemma RemapIs(exp: real -> real, alpha: real, beta: real, k: int, v: real)
    requires 0.0 <= v < 1.0
    ensures RemapPixel(SourceKernels(Reals(exp), alpha, beta), k, v) == Toned(exp, alpha, beta, k, v)
  {
    var n := (v * 768.0).Floor;
    TableIs(exp, alpha, n - 256 * k);
  }

  lemma PlaneIs(exp: real -> real, v: real)
    requires 0.0 <= v < 1.0
    ensures LaplacianSpec.Plane(Reals(exp), v) == (3.0 * v).Floor && 0 <= (3.0 * v).Floor <= 2
  {
  }

  lemma PickWith(exp: real -> real, alpha: real, beta: real, v: real, w: real, x: real, y: real)
    requires w == v * 3.0 - LaplacianSpec.Plane(Reals(exp), v) as real
    ensures SourceKernels(Reals(exp), alpha, beta).pick(v, x, y) == (1.0 - w) * x + w * y
  {
    var ar := Reals(exp);
    assert ar.sub(ar.mul(v, ar.ofInt(3)), ar.ofInt(LaplacianSpec.Plane(ar, v))) == w;
    assert Interpolate(ar, v, x, y) == ar.add(ar.mul(ar.sub(ar.lit(1.0), w), x), ar.mul(w, y));
  }

  /** at no more details, none */
  lemma PickNone(exp: real -> real, alpha: real, beta: real, v: real)
    ensures SourceKernels(Reals(exp), alpha, beta).pick(v, 0.0, 0.0) == 0.0
  {
    var w := v * 3.0 - LaplacianSpec.Plane(Reals(exp), v) as real;
    PickWith(exp, alpha, beta, v, w, 0.0, 0.0);
  }

  lemma FlatDown(exp: real -> real, alpha: real, beta: real, k: int, v: real, f: Stage<real>, x: Stage<real>, g: Stage<real>)
    requires DownRowLaw(SourceKernels(Reals(exp), alpha, beta), f, x) && DownColLaw(SourceKernels(Reals(exp), alpha, beta), x, g)
    requires Flat(f, k, v)
    ensures Flat(g, k, v)
  {
    assert Flat(x, k, v);
  }

  lemma FlatUp(exp: real -> real, alpha: real, beta: real, k: int, v: real, f: Stage<real>, u: Stage<real>, i: int, j: int)
    requires UpRowLaw(SourceKernels(Reals(exp), alpha, beta), f, u) && Flat(f, k, v)
    ensures UpCol(SourceKernels(Reals(exp), alpha, beta), u, k, i, j) == v
  {
    assert u(k, i, Far(j)) == v && u(k, i, j / 2) == v;
  }

  lemma {:induction false} FlatPyramids(exp: real -> real, alpha: real, beta: real, s: Stages<real>, v: real, k: int, l: nat)
    requires Lawful(SourceKernels(Reals(exp), alpha, beta), s) && Flat(s.inG[0], 0, v) && 0.0 <= v < 1.0 && l <= 4
    ensures Flat(s.inG[l], 0, v) && Flat(s.g[l], k, Toned(exp, alpha, beta, k, v))
  {
    var e := SourceKernels(Reals(exp), alpha, beta);
    if l == 0 {
      forall i, j ensures s.g[0](k, i, j) == Toned(exp, alpha, beta, k, v) {
        RemapIs(exp, alpha, beta, k, v);
        assert s.g[0](k, i, j) == RemapPixel(e, k, s.inG[0](0, i, j));
      }
    } else {
      FlatPyramids(exp, alpha, beta, s, v, k, l - 1);
      assert LawfulDown(e, s, l - 1);
      FlatDown(exp, alpha, beta, 0, v, s.inG[l - 1], s.inRow[l - 1], s.inG[l]);
      FlatDown(exp, alpha, beta, k, Toned(exp, alpha, beta, k, v), s.g[l - 1], s.row[l - 1], s.g[l]);
    }
  }

  /** Flat planes have no details, so the level above comes down unchanged. */
  lemma FlatCollapse(exp: real -> real, alpha: real, beta: real, v: real, a: real, b: real, y: real, inG: Stage<real>, g: Stage<real>,
                     gAbove: Stage<real>, outAbove: Stage<real>, up: Stage<real>, lap: Stage<real>, outL: Stage<real>,
                     outUp: Stage<real>, out: Stage<real>)
    requires OutLaws(SourceKernels(Reals(exp), alpha, beta), inG, g, gAbove, outAbove, up, lap, outL, outUp, out)
    requires 0.0 <= v < 1.0 && Flat(inG, 0, v) && Flat(outAbove, 0, y)
    requires var k := (3.0 * v).Floor; Flat(g, k, a) && Flat(gAbove, k, a) && Flat(g, k + 1, b) && Flat(gAbove, k + 1, b)
    ensures Flat(out, 0, y)
  {
    var e, k := SourceKernels(Reals(exp), alpha, beta), (3.0 * v).Floor;
    PlaneIs(exp, v);
    forall i, j ensures out(0, i, j) == y {
      FlatUp(exp, alpha, beta, k, a, gAbove, up, i, j);
      FlatUp(exp, alpha, beta, k + 1, b, gAbove, up, i, j);
      assert lap(k, i, j) == 0.0 && lap(k + 1, i, j) == 0.0;
      PickNone(exp, alpha, beta, v);
      assert outL(0, i, j) == e.pick(v, 0.0, 0.0);
      FlatUp(exp, alpha, beta, 0, y, outAbove, outUp, i, j);
    }
  }

  /** At every level the input is flat, and so are planes k and k + 1. */
  ghost predicate FlatLevels(s: Stages<real>, v: real, k: int, a: real, b: real)
    requires s.Shaped()
  {
    forall l :: 0 <= l <= 4 ==> Flat(s.inG[l], 0, v) && Flat(s.g[l], k, a) && Flat(s.g[l], k + 1, b)
  }

  /** Every output level is flat, at the value between those of the two planes. */
  lemma {:induction false} FlatOut(exp: real -> real, alpha: real, beta: real, s: Stages<real>, v: real, a: real, b: real, y: real, l: nat)
    requires Lawful(SourceKernels(Reals(exp), alpha, beta), s) && 0.0 <= v < 1.0 && l <= 4
    requires FlatLevels(s, v, (3.0 * v).Floor, a, b) && y == SourceKernels(Reals(exp), alpha, beta).pick(v, a, b)
    ensures Flat(s.outG[l], 0, y)
    decreases 4 - l
  {
    var e := SourceKernels(Reals(exp), alpha, beta);
    if l == 4 {
      PlaneIs(exp, v);
      forall i, j ensures s.outG[4](0, i, j) == y {
        assert s.outG[4](0, i, j) == PickPixel(e, s.inG[4](0, i, j), s.g[4], i, j);
      }
    } else {
      FlatOut(exp, alpha, beta, s, v, a, b, y, l + 1);
      assert LawfulOut(e, s, l);
      FlatCollapse(exp, alpha, beta, v, a, b, y, s.inG[l], s.g[l], s.g[l + 1], s.outG[l + 1],
                   s.up[l], s.lap[l], s.outL[l], s.outUp[l], s.outG[l]);
    }
  }

  /** A flat image comes out flat, at the tone between those of the two nearest planes. */
  lemma FlatImage(exp: real -> real, alpha: real, beta: real, s: Stages<real>, v: real)
    requires Lawful(SourceKernels(Reals(exp), alpha, beta), s) && Flat(s.inG[0], 0, v) && 0.0 <= v < 1.0
    ensures Flat(s.outG[0], 0, FlatTone(exp, alpha, beta, v))
  {
    var k := (3.0 * v).Floor;
    var a, b, y := FlatToneIs(exp, alpha, beta, v);
    forall l | 0 <= l <= 4 ensures Flat(s.inG[l], 0, v) && Flat(s.g[l], k, a) && Flat(s.g[l], k + 1, b) {
      FlatPyramids(exp, alpha, beta, s, v, k, l);
      FlatPyramids(exp, alpha, beta, s, v, k + 1, l);
    }
    FlatOut(exp, alpha, beta, s, v, a, b, y, 0);
  }

  /** what the planes around v are mixed to */
  lemma PickIs(exp: real -> real, alpha: real, beta: real, v: real, a: real, b: real)
    requires 0.0 <= v < 1.0
    ensures SourceKernels(Reals(exp), alpha, beta).pick(v, a, b) == Between(3.0 * v - (3.0 * v).Floor as real, a, b)
  {
    PlaneIs(exp, v);
    PickWith(exp, alpha, beta, v, 3.0 * v - (3.0 * v).Floor as real, a, b);
  }

  lemma FlatToneIs(exp: real -> real, alpha: real, beta: real, v: real) returns (a: real, b: real, y: real)
    requires 0.0 <= v < 1.0
    ensures a == Toned(exp, alpha, beta, (3.0 * v).Floor, v) && b == Toned(exp, alpha, beta, (3.0 * v).Floor + 1, v)
    ensures y == FlatTone(exp, alpha, beta, v) == SourceKernels(Reals(exp), alpha, beta).pick(v, a, b)
  {
    var k := (3.0 * v).Floor;
    a, b := Toned(exp, alpha, beta, k, v), Toned(exp, alpha, beta, k + 1, v);
    y := FlatTone(exp, alpha, beta, v);
    PickIs(exp, alpha, beta, v, a, b);
  }

  /** So the tiled code gives a flat image that tone, for all alpha and beta. */
  method TiledFlat(R: int, C: int, img: Window<real>, exp: real -> real, alpha: real, beta: real, v: real, stray: (int, int, int) -> real)
    returns (tiled: Window<real>)
    requires R > 92 && C > 92 && img.buf.Valid() && 0.0 <= v < 1.0
    requires forall i, j {:trigger img.At(0, i, j)} :: 0 <= i < R && 0 <= j < C ==> img.At(0, i, j) == v
    ensures CanStore(tiled, 1, OutDomain(R, C, 0))
    ensures forall i, j :: 31 <= i <= R - 62 && 31 <= j <= C - 62 ==> tiled.At(0, i, j) == FlatTone(exp, alpha, beta, v)
  {
    var e := SourceKernels(Reals(exp), alpha, beta);
    ghost var s := MakeStages(e, (k, i, j) => v);
    forall x ensures 0 <= e.level(x) <= 2 {
      SourceInRange(exp, alpha, beta, x);
    }
    forall i, j | 0 <= i < R && 0 <= j < C ensures 0 <= e.bin(s.inG[0](0, i, j)) < 768 {
      SourceInRange(exp, alpha, beta, v);
    }
    FlatImage(exp, alpha, beta, s, v);
    tiled := Tiled(e, R, C, img, stray, s);
  }

  // The filters.

  predicate StepGrows(A: int -> real, n: int, d: real) {
    A(n + 1) - A(n) == A(n) - A(n - 1) + d
  }

  ghost predicate Quadratic(A: int -> real, d: real) {
    forall n :: StepGrows(A, n, d)
  }

  /** [1 3 3 1] / 8 from index n of the coarser level */
  function Halving(A: int -> real, n: int): real {
    (A(2 * n - 1) + 3.0 * A(2 * n) + 3.0 * A(2 * n + 1) + A(2 * n + 2)) / 8.0
  }

  lemma AxisBack(A: int -> real, d: real, n: int)
    requires Quadratic(A, d)
    ensures 0.25 * Halving(A, Far(n)) + 0.75 * Halving(A, n / 2) == A(n) + 0.75 * d
  {
    assert StepGrows(A, n - 2, d) && StepGrows(A, n - 1, d) && StepGrows(A, n, d) && StepGrows(A, n + 1, d) && StepGrows(A, n + 2, d);
    var m := n / 2;
    if n % 2 == 0 {
      assert Far(n) == m - 1 && n == 2 * m;
    } else {
      assert Far(n) == m + 1 && n == 2 * m + 1;
    }
  }

  ghost predicate Separate(f: Stage<real>, k: int, A: int -> real, B: int -> real) {
    forall i, j {:trigger f(k, i, j)} :: f(k, i, j) == A(i) + B(j)
  }

  /** Downsampled and upsampled again, a quadratic surface comes back raised by 3/4 of its second differences; an affine
      one comes back. Its details are that difference. */
  lemma QuadraticDetails(exp: real -> real, alpha: real, beta: real, k: int, A: int -> real, B: int -> real, d: real, d': real,
                         f: Stage<real>, x: Stage<real>, g: Stage<real>, up: Stage<real>, lap: Stage<real>, i: int, j: int)
    requires Separate(f, k, A, B) && Quadratic(A, d) && Quadratic(B, d')
    requires DownRowLaw(SourceKernels(Reals(exp), alpha, beta), f, x) && DownColLaw(SourceKernels(Reals(exp), alpha, beta), x, g)
    requires UpRowLaw(SourceKernels(Reals(exp), alpha, beta), g, up) && DetailLaw(SourceKernels(Reals(exp), alpha, beta), f, up, lap)
    ensures lap(k, i, j) == -0.75 * (d + d')
  {
    AxisBack(A, d, i);
    AxisBack(B, d', j);
    HalvedBoth(exp, alpha, beta, k, A, B, f, x, g);
    UpsampledRow(exp, alpha, beta, k, A, B, g, up, i, Far(j));
    UpsampledRow(exp, alpha, beta, k, A, B, g, up, i, j / 2);
    assert lap(k, i, j) == f(k, i, j) - (0.25 * up(k, i, Far(j)) + 0.75 * up(k, i, j / 2));
  }

  lemma HalvedBoth(exp: real -> real, alpha: real, beta: real, k: int, A: int -> real, B: int -> real,
                   f: Stage<real>, x: Stage<real>, g: Stage<real>)
    requires Separate(f, k, A, B)
    requires DownRowLaw(SourceKernels(Reals(exp), alpha, beta), f, x) && DownColLaw(SourceKernels(Reals(exp), alpha, beta), x, g)
    ensures forall i, j {:trigger g(k, i, j)} :: g(k, i, j) == Halving(A, i) + Halving(B, j)
  {
    forall i, j ensures x(k, i, j) == Halving(A, i) + B(j) {
      assert x(k, i, j) == DownRow(SourceKernels(Reals(exp), alpha, beta), f, k, i, j);
    }
    forall i, j ensures g(k, i, j) == Halving(A, i) + Halving(B, j) {
      assert g(k, i, j) == DownCol(SourceKernels(Reals(exp), alpha, beta), x, k, i, j);
    }
  }

  lemma UpsampledRow(exp: real -> real, alpha: real, beta: real, k: int, A: int -> real, B: int -> real,
                     g: Stage<real>, up: Stage<real>, i: int, j: int)
    requires forall u, v {:trigger g(k, u, v)} :: g(k, u, v) == Halving(A, u) + Halving(B, v)
    requires UpRowLaw(SourceKernels(Reals(exp), alpha, beta), g, up)
    ensures up(k, i, j) == 0.25 * Halving(A, Far(i)) + 0.75 * Halving(A, i / 2) + Halving(B, j)
  {
    assert up(k, i, j) == 0.25 * g(k, Far(i), j) + 0.75 * g(k, i / 2, j);
  }

  /** A downsampled pixel is the mean of 4 x 4 finer ones, weighted 1 3 3 1 along both axes. */
  lemma DownWeights(exp: real -> real, alpha: real, beta: real, k: int, f: Stage<real>, x: Stage<real>, g: Stage<real>, i: int, j: int)
    requires DownRowLaw(SourceKernels(Reals(exp), alpha, beta), f, x) && DownColLaw(SourceKernels(Reals(exp), alpha, beta), x, g)
    ensures 64.0 * g(k, i, j) ==
            (f(k, 2 * i - 1, 2 * j - 1) + 3.0 * f(k, 2 * i, 2 * j - 1) + 3.0 * f(k, 2 * i + 1, 2 * j - 1) + f(k, 2 * i + 2, 2 * j - 1))
            + 3.0 * (f(k, 2 * i - 1, 2 * j) + 3.0 * f(k, 2 * i, 2 * j) + 3.0 * f(k, 2 * i + 1, 2 * j) + f(k, 2 * i + 2, 2 * j))
            + 3.0 * (f(k, 2 * i - 1, 2 * j + 1) + 3.0 * f(k, 2 * i, 2 * j + 1) + 3.0 * f(k, 2 * i + 1, 2 * j + 1) + f(k, 2 * i + 2, 2 * j + 1))
            + (f(k, 2 * i - 1, 2 * j + 2) + 3.0 * f(k, 2 * i, 2 * j + 2) + 3.0 * f(k, 2 * i + 1, 2 * j + 2) + f(k, 2 * i + 2, 2 * j + 2))
  {
    assert g(k, i, j) == DownCol(SourceKernels(Reals(exp), alpha, beta), x, k, i, j);
  }
}
