/** The local Laplacian filter as a function of the image: what every stage of the pipeline means. */
module LaplacianSpec {
  import opened Arithmetic
  import opened Buffers

  /** The pixel expressions of the loop nests. The tiling is proved correct for any of them;
      `SourceKernels` are the ones both files contain. */
  datatype Kernels<!P> = Kernels(
    down: (P, P, P, P) -> P,  // one axis of the [1 3 3 1] filter
    mix: (P, P) -> P,         // far and near coarse neighbour of an upsampled pixel
    sub: (P, P) -> P,
    add: (P, P) -> P,
    bin: P -> int,            // lookup-table bin of a pixel
    table: int -> P,          // entry of the table, 0 .. 1535
    remap: (int, P, P) -> P,  // plane, pixel, table entry
    level: P -> int,          // intensity plane below a pixel, 0 .. 2
    pick: (P, P, P) -> P)     // pixel, value on that plane, value on the next one

  function DownRow<P>(e: Kernels<P>, f: Stage<P>, k: int, i: int, j: int): P {
    e.down(f(k, 2 * i - 1, j), f(k, 2 * i, j), f(k, 2 * i + 1, j), f(k, 2 * i + 2, j))
  }

  function DownCol<P>(e: Kernels<P>, f: Stage<P>, k: int, i: int, j: int): P {
    e.down(f(k, i, 2 * j - 1), f(k, i, 2 * j), f(k, i, 2 * j + 1), f(k, i, 2 * j + 2))
  }

  /** the second coarse neighbour of fine index n */
  function Far(n: int): int {
    if n % 2 == 0 then n / 2 - 1 else n / 2 + 1
  }

  function UpRow<P>(e: Kernels<P>, f: Stage<P>, k: int, i: int, j: int): P {
    e.mix(f(k, Far(i), j), f(k, i / 2, j))
  }

  function UpCol<P>(e: Kernels<P>, f: Stage<P>, k: int, i: int, j: int): P {
    e.mix(f(k, i, Far(j)), f(k, i, j / 2))
  }

  // How one loop nest's stage follows from the stages it reads.

  ghost predicate DownRowLaw<P(!new)>(e: Kernels<P>, f: Stage<P>, g: Stage<P>) {
    forall k, i, j {:trigger g(k, i, j)} :: g(k, i, j) == DownRow(e, f, k, i, j)
  }

  ghost predicate DownColLaw<P(!new)>(e: Kernels<P>, f: Stage<P>, g: Stage<P>) {
    forall k, i, j {:trigger g(k, i, j)} :: g(k, i, j) == DownCol(e, f, k, i, j)
  }

  ghost predicate UpRowLaw<P(!new)>(e: Kernels<P>, f: Stage<P>, g: Stage<P>) {
    forall k, i, j {:trigger g(k, i, j)} :: g(k, i, j) == UpRow(e, f, k, i, j)
  }

  function RemapPixel<P>(e: Kernels<P>, k: int, v: P): P {
    e.remap(k, v, e.table(e.bin(v) - 256 * k + 768))
  }

  ghost predicate RemapLaw<P(!new)>(e: Kernels<P>, f: Stage<P>, g: Stage<P>) {
    forall k, i, j {:trigger g(k, i, j)} :: g(k, i, j) == RemapPixel(e, k, f(0, i, j))
  }

  ghost predicate DetailLaw<P(!new)>(e: Kernels<P>, f: Stage<P>, u: Stage<P>, g: Stage<P>) {
    forall k, i, j {:trigger g(k, i, j)} :: g(k, i, j) == e.sub(f(k, i, j), UpCol(e, u, k, i, j))
  }

  function PickPixel<P>(e: Kernels<P>, v: P, u: Stage<P>, i: int, j: int): P {
    e.pick(v, u(e.level(v), i, j), u(e.level(v) + 1, i, j))
  }

  ghost predicate PickLaw<P(!new)>(e: Kernels<P>, f: Stage<P>, u: Stage<P>, g: Stage<P>) {
    forall i, j {:trigger g(0, i, j)} :: g(0, i, j) == PickPixel(e, f(0, i, j), u, i, j)
  }

  ghost predicate CollapseLaw<P(!new)>(e: Kernels<P>, f: Stage<P>, u: Stage<P>, g: Stage<P>) {
    forall i, j {:trigger g(0, i, j)} :: g(0, i, j) == e.add(f(0, i, j), UpCol(e, u, 0, i, j))
  }

  /** The stages of the pipeline by level, as functions on pixel coordinates. */
  datatype Stages<!P> = Stages(
    inG: seq<Stage<P>>,     // 0 .. 4: Gaussian pyramid of the image
    inRow: seq<Stage<P>>,   // 0 .. 3: the level below it, filtered along rows only
    g: seq<Stage<P>>,       // 0 .. 4: Gaussian pyramids of the four remapped images
    row: seq<Stage<P>>,     // 0 .. 3
    up: seq<Stage<P>>,      // 0 .. 3: the level above, upsampled along rows
    lap: seq<Stage<P>>,     // 0 .. 3: Laplacian pyramids of the four remapped images
    outL: seq<Stage<P>>,    // 0 .. 3: output Laplacian pyramid
    outG: seq<Stage<P>>,    // 0 .. 4: collapsed output
    outUp: seq<Stage<P>>)   // 0 .. 3: the output level above, upsampled along rows
  {
    ghost predicate Shaped() {
      && |inG| == |g| == |outG| == 5
      && |inRow| == |row| == |up| == |lap| == |outL| == |outUp| == 4
    }
  }

  /** s is what the pipeline defines: each stage follows from those before it. */
  ghost predicate Lawful<P(!new)>(e: Kernels<P>, s: Stages<P>) {
    && s.Shaped()
    && RemapLaw(e, s.inG[0], s.g[0])
    && (forall l :: 0 <= l <= 3 ==> LawfulDown(e, s, l))
    && PickLaw(e, s.inG[4], s.g[4], s.outG[4])
    && (forall l :: 0 <= l <= 3 ==> LawfulOut(e, s, l))
  }

  /** level l + 1 from level l */
  ghost predicate LawfulDown<P(!new)>(e: Kernels<P>, s: Stages<P>, l: nat)
    requires s.Shaped() && l <= 3
  {
    && DownRowLaw(e, s.inG[l], s.inRow[l]) && DownColLaw(e, s.inRow[l], s.inG[l + 1])
    && DownRowLaw(e, s.g[l], s.row[l]) && DownColLaw(e, s.row[l], s.g[l + 1])
  }

  ghost predicate DownLaws<P(!new)>(e: Kernels<P>, f: seq<Stage<P>>, x: seq<Stage<P>>) {
    && |f| == 5 && |x| == 4
    && DownRowLaw(e, f[0], x[0]) && DownColLaw(e, x[0], f[1]) && DownRowLaw(e, f[1], x[1]) && DownColLaw(e, x[1], f[2])
    && DownRowLaw(e, f[2], x[2]) && DownColLaw(e, x[2], f[3]) && DownRowLaw(e, f[3], x[3]) && DownColLaw(e, x[3], f[4])
  }

  lemma AllDown<P(!new)>(e: Kernels<P>, s: Stages<P>)
    requires Lawful(e, s)
    ensures DownLaws(e, s.inG, s.inRow) && DownLaws(e, s.g, s.row)
  {
    assert LawfulDown(e, s, 0) && LawfulDown(e, s, 1) && LawfulDown(e, s, 2) && LawfulDown(e, s, 3);
  }

  /** output level l from output level l + 1 */
  ghost predicate LawfulOut<P(!new)>(e: Kernels<P>, s: Stages<P>, l: nat)
    requires s.Shaped() && l <= 3
  {
    OutLaws(e, s.inG[l], s.g[l], s.g[l + 1], s.outG[l + 1], s.up[l], s.lap[l], s.outL[l], s.outUp[l], s.outG[l])
  }

  ghost predicate OutLaws<P(!new)>(e: Kernels<P>, input: Stage<P>, g: Stage<P>, gAbove: Stage<P>, outAbove: Stage<P>,
                                   up: Stage<P>, lap: Stage<P>, outL: Stage<P>, outUp: Stage<P>, out: Stage<P>) {
    && UpRowLaw(e, gAbove, up) && DetailLaw(e, g, up, lap) && PickLaw(e, input, lap, outL)
    && UpRowLaw(e, outAbove, outUp) && CollapseLaw(e, outL, outUp, out)
  }

  // There is such a family over every image.

  lemma MakeDown<P(!new)>(e: Kernels<P>, f: Stage<P>) returns (x: Stage<P>, g: Stage<P>)
    ensures DownRowLaw(e, f, x) && DownColLaw(e, x, g)
  {
    x := (k, i, j) => DownRow(e, f, k, i, j);
    g := (k, i, j) => DownCol(e, x, k, i, j);
  }

  lemma MakePyramid<P(!new)>(e: Kernels<P>, f: Stage<P>) returns (x: seq<Stage<P>>, g: seq<Stage<P>>)
    ensures |x| == 4 && |g| == 5 && g[0] == f
    ensures forall l :: 0 <= l < 4 ==> DownRowLaw(e, g[l], x[l]) && DownColLaw(e, x[l], g[l + 1])
  {
    x, g := [], [f];
    while |x| < 4
      invariant |x| <= 4 && |g| == |x| + 1 && g[0] == f
      invariant forall l :: 0 <= l < |x| ==> DownRowLaw(e, g[l], x[l]) && DownColLaw(e, x[l], g[l + 1])
    {
      var x', g' := MakeDown(e, g[|x|]);
      x, g := x + [x'], g + [g'];
    }
  }

  lemma MakeRemap<P(!new)>(e: Kernels<P>, f: Stage<P>) returns (g: Stage<P>)
    ensures RemapLaw(e, f, g)
  {
    g := (k, i, j) => RemapPixel(e, k, f(0, i, j));
  }

  lemma MakeUp<P(!new)>(e: Kernels<P>, f: Stage<P>) returns (u: Stage<P>)
    ensures UpRowLaw(e, f, u)
  {
    u := (k, i, j) => UpRow(e, f, k, i, j);
  }

  lemma MakeDetail<P(!new)>(e: Kernels<P>, f: Stage<P>, u: Stage<P>) returns (g: Stage<P>)
    ensures DetailLaw(e, f, u, g)
  {
    g := (k, i, j) => e.sub(f(k, i, j), UpCol(e, u, k, i, j));
  }

  lemma MakePick<P(!new)>(e: Kernels<P>, f: Stage<P>, u: Stage<P>) returns (g: Stage<P>)
    ensures PickLaw(e, f, u, g)
  {
    g := (k, i, j) => PickPixel(e, f(0, i, j), u, i, j);
  }

  lemma MakeCollapse<P(!new)>(e: Kernels<P>, f: Stage<P>, u: Stage<P>) returns (g: Stage<P>)
    ensures CollapseLaw(e, f, u, g)
  {
    g := (k, i, j) => e.add(f(0, i, j), UpCol(e, u, 0, i, j));
  }

  lemma MakeOut<P(!new)>(e: Kernels<P>, input: Stage<P>, g: Stage<P>, gAbove: Stage<P>, outAbove: Stage<P>)
    returns (up: Stage<P>, lap: Stage<P>, outL: Stage<P>, outUp: Stage<P>, out: Stage<P>)
    ensures OutLaws(e, input, g, gAbove, outAbove, up, lap, outL, outUp, out)
  {
    up := MakeUp(e, gAbove);
    lap := MakeDetail(e, g, up);
    outL := MakePick(e, input, lap);
    outUp := MakeUp(e, outAbove);
    out := MakeCollapse(e, outL, outUp);
  }

  lemma MakeOutPyramid<P(!new)>(e: Kernels<P>, inG: seq<Stage<P>>, g: seq<Stage<P>>)
    returns (up: seq<Stage<P>>, lap: seq<Stage<P>>, outL: seq<Stage<P>>, outUp: seq<Stage<P>>, outG: seq<Stage<P>>)
    requires |inG| == |g| == 5
    ensures |up| == |lap| == |outL| == |outUp| == 4 && |outG| == 5 && PickLaw(e, inG[4], g[4], outG[4])
    ensures forall l :: 0 <= l < 4 ==>
              OutLaws(e, inG[l], g[l], g[l + 1], outG[l + 1], up[l], lap[l], outL[l], outUp[l], outG[l])
  {
    var out4 := MakePick(e, inG[4], g[4]);
    up, lap, outL, outUp, outG := [], [], [], [], [out4];
    while |up| < 4
      invariant |up| == |lap| == |outL| == |outUp| <= 4 && |outG| == |up| + 1 && outG[|up|] == out4
      invariant forall m :: 0 <= m < |up| ==>
                  OutLaws(e, inG[4 - |up| + m], g[4 - |up| + m], g[5 - |up| + m], outG[m + 1], up[m], lap[m], outL[m], outUp[m], outG[m])
    {
      var l := 3 - |up|;
      var up', lap', outL', outUp', out' := MakeOut(e, inG[l], g[l], g[l + 1], outG[0]);
      up, lap, outL, outUp, outG := [up'] + up, [lap'] + lap, [outL'] + outL, [outUp'] + outUp, [out'] + outG;
    }
  }

  /** Every image has its pipeline. */
  lemma MakeStages<P(!new)>(e: Kernels<P>, f: Stage<P>) returns (s: Stages<P>)
    ensures Lawful(e, s) && s.inG[0] == f
  {
    var inRow, inG := MakePyramid(e, f);
    var g0 := MakeRemap(e, f);
    var row, g := MakePyramid(e, g0);
    var up, lap, outL, outUp, outG := MakeOutPyramid(e, inG, g);
    s := Stages(inG, inRow, g, row, up, lap, outL, outG, outUp);
  }

  // The source's expressions.

  function Clamp(n: int, hi: int): int {
    if (if n > 0 then n else 0) < hi then if n > 0 then n else 0 else hi
  }

  /** table entry n, for -768 .. 767 */
  function TableEntry<P>(ar: Arith<P>, alpha: P, n: int): P {
    var x := ar.div(ar.ofInt(n), ar.lit(256.0));
    ar.mul(ar.mul(alpha, x), ar.exp(ar.div(ar.mul(ar.neg(x), x), ar.lit(2.0))))
  }

  function Binomial<P>(ar: Arith<P>, a: P, b: P, c: P, d: P): P {
    ar.mul(ar.add(ar.add(ar.add(a, ar.mul(ar.lit(3.0), b)), ar.mul(ar.lit(3.0), c)), d), ar.lit(0.125))
  }

  function Remapped<P>(ar: Arith<P>, beta: P, k: int, v: P, entry: P): P {
    var centre := ar.mul(ar.ofInt(k), ar.lit(0.333333333333));
    ar.add(ar.add(ar.mul(beta, ar.sub(v, centre)), centre), entry)
  }

  function Plane<P>(ar: Arith<P>, v: P): int {
    Clamp(ar.toInt(ar.mul(v, ar.ofInt(3))), 2)
  }

  function Interpolate<P>(ar: Arith<P>, v: P, below: P, above: P): P {
    var w := ar.sub(ar.mul(v, ar.ofInt(3)), ar.ofInt(Plane(ar, v)));
    ar.add(ar.mul(ar.sub(ar.lit(1.0), w), below), ar.mul(w, above))
  }

  function SourceKernels<P>(ar: Arith<P>, alpha: P, beta: P): Kernels<P> {
    Kernels(
      (a, b, c, d) => Binomial(ar, a, b, c, d),
      (far, near) => ar.add(ar.mul(ar.lit(0.25), far), ar.mul(ar.lit(0.75), near)),
      ar.sub,
      ar.add,
      v => Clamp(ar.toInt(ar.mul(v, ar.lit(768.0))), 768),
      n => TableEntry(ar, alpha, n - 768),
      (k, v, entry) => Remapped(ar, beta, k, v, entry),
      v => Plane(ar, v),
      (v, below, above) => Interpolate(ar, v, below, above))
  }

  /** The laws that make the filter the identity. */
  ghost predicate Neutral<P(!new)>(e: Kernels<P>) {
    && (forall k, v, n :: e.remap(k, v, e.table(n)) == v)
    && (forall v, x :: e.pick(v, x, x) == x)
    && (forall x, y :: e.add(e.sub(x, y), y) == x)
  }

  /** Every plane of f is the one plane of g. */
  ghost predicate SamePlanes<P(!new)>(f: Stage<P>, g: Stage<P>) {
    forall k, i, j :: f(k, i, j) == g(0, i, j)
  }

  lemma SameDown<P(!new)>(e: Kernels<P>, f: Stage<P>, fx: Stage<P>, f': Stage<P>, g: Stage<P>, gx: Stage<P>, g': Stage<P>)
    requires SamePlanes(f, g)
    requires DownRowLaw(e, f, fx) && DownColLaw(e, fx, f') && DownRowLaw(e, g, gx) && DownColLaw(e, gx, g')
    ensures SamePlanes(f', g')
  {
    assert SamePlanes(fx, gx);
  }

  /** Every intensity plane of every level is the input level. */
  lemma {:induction false} SamePyramid<P(!new)>(e: Kernels<P>, s: Stages<P>, l: nat)
    requires Neutral(e) && Lawful(e, s) && l <= 4
    ensures SamePlanes(s.g[l], s.inG[l])
  {
    if l > 0 {
      SamePyramid(e, s, l - 1);
      assert LawfulDown(e, s, l - 1);
      SameDown(e, s.g[l - 1], s.row[l - 1], s.g[l], s.inG[l - 1], s.inRow[l - 1], s.inG[l]);
    }
  }

  lemma CollapseUndoes<P(!new)>(e: Kernels<P>, inG: Stage<P>, above: Stage<P>, g: Stage<P>, gAbove: Stage<P>, up: Stage<P>,
                                lap: Stage<P>, outL: Stage<P>, outAbove: Stage<P>, outUp: Stage<P>, out: Stage<P>)
    requires Neutral(e) && SamePlanes(g, inG) && SamePlanes(gAbove, above)
    requires forall i, j :: outAbove(0, i, j) == above(0, i, j)
    requires OutLaws(e, inG, g, gAbove, outAbove, up, lap, outL, outUp, out)
    ensures forall i, j :: out(0, i, j) == inG(0, i, j)
  {
    forall i, j ensures out(0, i, j) == inG(0, i, j) {
      var u := UpCol(e, outUp, 0, i, j);
      forall k ensures lap(k, i, j) == e.sub(inG(0, i, j), u) {
        assert up(k, i, Far(j)) == outUp(0, i, Far(j)) && up(k, i, j / 2) == outUp(0, i, j / 2);
      }
      assert outL(0, i, j) == e.sub(inG(0, i, j), u);
    }
  }

  /** Collapsing gives back the input level, at every level, whichever planes the clamped level picks. */
  lemma {:induction false} Identity<P(!new)>(e: Kernels<P>, s: Stages<P>, l: nat)
    requires Neutral(e) && Lawful(e, s) && l <= 4
    ensures forall i, j :: s.outG[l](0, i, j) == s.inG[l](0, i, j)
    decreases 4 - l
  {
    SamePyramid(e, s, l);
    if l < 4 {
      SamePyramid(e, s, l + 1);
      Identity(e, s, l + 1);
      assert LawfulOut(e, s, l);
      CollapseUndoes(e, s.inG[l], s.inG[l + 1], s.g[l], s.g[l + 1], s.up[l], s.lap[l], s.outL[l], s.outG[l + 1], s.outUp[l], s.outG[l]);
    }
  }

  lemma RealRemap(exp: real -> real, k: int, v: real, n: int)
    ensures Remapped(Reals(exp), 1.0, k, v, TableEntry(Reals(exp), 0.0, n)) == v
  {
    var ar := Reals(exp);
    assert ar.mul(0.0, ar.div(ar.ofInt(n), ar.lit(256.0))) == 0.0;
    assert TableEntry(ar, 0.0, n) == 0.0;
  }

  lemma RealPick(exp: real -> real, v: real, x: real)
    ensures Interpolate(Reals(exp), v, x, x) == x
  {
    var w := v * 3.0 - Plane(Reals(exp), v) as real;
    assert (1.0 - w) * x + w * x == x;
  }

  /** Over the reals, alpha = 0 empties the table and beta = 1 makes every plane the image. */
  lemma RealsNeutral(exp: real -> real)
    ensures Neutral(SourceKernels(Reals(exp), 0.0, 1.0))
  {
    var e := SourceKernels(Reals(exp), 0.0, 1.0);
    forall k, v, n ensures e.remap(k, v, e.table(n)) == v {
      RealRemap(exp, k, v, n - 768);
    }
    forall v, x ensures e.pick(v, x, x) == x {
      RealPick(exp, v, x);
    }
  }

  /** With alpha = 0 and beta = 1 the filter gives the grey image back. */
  lemma IdentityOnImage(s: Stages<real>, exp: real -> real, i: int, j: int)
    requires Lawful(SourceKernels(Reals(exp), 0.0, 1.0), s)
    ensures s.outG[0](0, i, j) == s.inG[0](0, i, j)
  {
    RealsNeutral(exp);
    Identity(SourceKernels(Reals(exp), 0.0, 1.0), s, 0);
  }
}
