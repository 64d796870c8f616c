/** Multi-scale interpolation as a function of the image: polymage_interpolate.py with its ten levels. */
module InterpolateSpec {
  import opened Arithmetic
  import opened Buffers

  /** The pixel expressions of the loop nests; `SourceKernels` are those of the files. */
  datatype Kernels<!P> = Kernels(
    zero: P,
    premultiply: (P, P) -> P,      // colour, alpha
    down: (P, P, P) -> P,          // one axis of the [1 2 1] filter
    mean: (P, P) -> P,
    blend: (P, P, P, P) -> P,      // level, its alpha, the two upsampled neighbours
    normal: (P, P) -> P)           // colour, alpha

  /** the files' image size, halved by level */
  function Rows(l: nat): nat {
    if l == 0 then 2560 else if l == 1 then 1280 else if l == 2 then 640 else if l == 3 then 320 else if l == 4 then 160
    else if l == 5 then 80 else if l == 6 then 40 else if l == 7 then 20 else if l == 8 then 10 else 5
  }

  function Cols(l: nat): nat {
    if l == 0 then 1536 else if l == 1 then 768 else if l == 2 then 384 else if l == 3 then 192 else if l == 4 then 96
    else if l == 5 then 48 else if l == 6 then 24 else if l == 7 then 12 else if l == 8 then 6 else 3
  }

  /** Stages have a border of one cell, which is zero. */
  predicate Inner(R: int, C: int, i: int, j: int) {
    1 <= i <= R && 1 <= j <= C
  }

  function DownRow<P>(e: Kernels<P>, f: Stage<P>, k: int, i: int, j: int): P {
    e.down(f(k, 2 * i - 2, j), f(k, 2 * i - 1, j), f(k, 2 * i, j))
  }

  function DownCol<P>(e: Kernels<P>, f: Stage<P>, k: int, i: int, j: int): P {
    e.down(f(k, i, 2 * j - 2), f(k, i, 2 * j - 1), f(k, i, 2 * j))
  }

  function UpRow<P>(e: Kernels<P>, f: Stage<P>, k: int, i: int, j: int): P {
    e.mean(f(k, (i + 1) / 2, j), f(k, (i + 2) / 2, j))
  }

  function Blend<P>(e: Kernels<P>, d: Stage<P>, u: Stage<P>, k: int, i: int, j: int): P {
    e.blend(d(k, i, j), d(3, i, j), u(k, i, (j + 1) / 2), u(k, i, (j + 2) / 2))
  }

  ghost predicate PremultiplyLaw<P(!new)>(e: Kernels<P>, img: Stage<P>, g: Stage<P>) {
    forall k, i, j {:trigger g(k, i, j)} :: g(k, i, j) == e.premultiply(img(k, i, j), img(3, i, j))
  }

  ghost predicate DownRowLaw<P(!new)>(e: Kernels<P>, f: Stage<P>, R: int, C: int, g: Stage<P>) {
    forall k, i, j {:trigger g(k, i, j)} :: g(k, i, j) == if Inner(R, C, i, j) then DownRow(e, f, k, i, j) else e.zero
  }

  ghost predicate DownColLaw<P(!new)>(e: Kernels<P>, f: Stage<P>, R: int, C: int, g: Stage<P>) {
    forall k, i, j {:trigger g(k, i, j)} :: g(k, i, j) == if Inner(R, C, i, j) then DownCol(e, f, k, i, j) else e.zero
  }

  ghost predicate UpRowLaw<P(!new)>(e: Kernels<P>, f: Stage<P>, R: int, C: int, g: Stage<P>) {
    forall k, i, j {:trigger g(k, i, j)} :: g(k, i, j) == if Inner(R, C, i, j) then UpRow(e, f, k, i, j) else e.zero
  }

  ghost predicate BlendLaw<P(!new)>(e: Kernels<P>, d: Stage<P>, u: Stage<P>, R: int, C: int, g: Stage<P>) {
    forall k, i, j {:trigger g(k, i, j)} :: g(k, i, j) == if Inner(R, C, i, j) then Blend(e, d, u, k, i, j) else e.zero
  }

  ghost predicate NormalLaw<P(!new)>(e: Kernels<P>, f: Stage<P>, g: Stage<P>) {
    forall k, i, j {:trigger g(k, i, j)} :: g(k, i, j) == e.normal(f(k, i + 1, j + 1), f(3, i + 1, j + 1))
  }

  /** The stages by level; dx and ux are filtered along rows only. */
  datatype Stages<!P> = Stages(
    img: Stage<P>,
    d: seq<Stage<P>>,       // 0 .. 9: downsampled
    dx: seq<Stage<P>>,      // dx[l]: on the way from d[l] to d[l + 1]
    ux: seq<Stage<P>>,      // ux[l]: on the way from up[l + 1] to up[l]
    up: seq<Stage<P>>,      // 0 .. 9: interpolated
    out: Stage<P>)
  {
    ghost predicate Shaped() {
      |d| == |up| == 10 && |dx| == |ux| == 9
    }
  }

  /** level l + 1 from level l */
  ghost predicate LawfulDown<P(!new)>(e: Kernels<P>, l: nat, f: Stage<P>, x: Stage<P>, g: Stage<P>) {
    DownRowLaw(e, f, Rows(l + 1), Cols(l), x) && DownColLaw(e, x, Rows(l + 1), Cols(l + 1), g)
  }

  /** level l from level l + 1 */
  ghost predicate LawfulUp<P(!new)>(e: Kernels<P>, l: nat, above: Stage<P>, d: Stage<P>, u: Stage<P>, g: Stage<P>) {
    UpRowLaw(e, above, Rows(l), Cols(l + 1), u) && BlendLaw(e, d, u, Rows(l), Cols(l), g)
  }

  ghost predicate Lawful<P(!new)>(e: Kernels<P>, s: Stages<P>) {
    && s.Shaped() && PremultiplyLaw(e, s.img, s.d[0])
    && (forall l {:trigger s.dx[l]} :: 0 <= l < 9 ==> LawfulDown(e, l, s.d[l], s.dx[l], s.d[l + 1]))
    && s.up[9] == s.d[9]
    && (forall l {:trigger s.ux[l]} :: 0 <= l < 9 ==> LawfulUp(e, l, s.up[l + 1], s.d[l], s.ux[l], s.up[l]))
    && NormalLaw(e, s.up[0], s.out)
  }

  // Every image has such a family.

  lemma MakeDown<P(!new)>(e: Kernels<P>, l: nat, f: Stage<P>) returns (x: Stage<P>, g: Stage<P>)
    ensures LawfulDown(e, l, f, x, g)
  {
    x := (k, i, j) => if Inner(Rows(l + 1), Cols(l), i, j) then DownRow(e, f, k, i, j) else e.zero;
    g := (k, i, j) => if Inner(Rows(l + 1), Cols(l + 1), i, j) then DownCol(e, x, k, i, j) else e.zero;
  }

  lemma MakeUp<P(!new)>(e: Kernels<P>, l: nat, above: Stage<P>, d: Stage<P>) returns (u: Stage<P>, g: Stage<P>)
    ensures LawfulUp(e, l, above, d, u, g)
  {
    u := (k, i, j) => if Inner(Rows(l), Cols(l + 1), i, j) then UpRow(e, above, k, i, j) else e.zero;
    g := (k, i, j) => if Inner(Rows(l), Cols(l), i, j) then Blend(e, d, u, k, i, j) else e.zero;
  }

  lemma MakeDowns<P(!new)>(e: Kernels<P>, f: Stage<P>) returns (d: seq<Stage<P>>, dx: seq<Stage<P>>)
    ensures |d| == 10 && |dx| == 9 && d[0] == f
    ensures forall l {:trigger dx[l]} :: 0 <= l < 9 ==> LawfulDown(e, l, d[l], dx[l], d[l + 1])
  {
    d, dx := [f], [];
    while |dx| < 9
      invariant |dx| <= 9 && |d| == |dx| + 1 && d[0] == f
      invariant forall l {:trigger dx[l]} :: 0 <= l < |dx| ==> LawfulDown(e, l, d[l], dx[l], d[l + 1])
    {
      var x, g := MakeDown(e, |dx|, d[|dx|]);
      d, dx := d + [g], dx + [x];
    }
  }

  lemma MakeUps<P(!new)>(e: Kernels<P>, d: seq<Stage<P>>) returns (up: seq<Stage<P>>, ux: seq<Stage<P>>)
    requires |d| == 10
    ensures |up| == 10 && |ux| == 9 && up[9] == d[9]
    ensures forall l {:trigger ux[l]} :: 0 <= l < 9 ==> LawfulUp(e, l, up[l + 1], d[l], ux[l], up[l])
  {
    up, ux := [d[9]], [];
    while |ux| < 9
      invariant |ux| <= 9 && |up| == |ux| + 1 && up[|ux|] == d[9]
      invariant forall m {:trigger ux[m]} :: 0 <= m < |ux| ==> LawfulUp(e, 9 - |ux| + m, up[m + 1], d[9 - |ux| + m], ux[m], up[m])
    {
      var l := 8 - |ux|;
      var u, g := MakeUp(e, l, up[0], d[l]);
      up, ux := [g] + up, [u] + ux;
    }
  }

  lemma MakeStages<P(!new)>(e: Kernels<P>, img: Stage<P>) returns (s: Stages<P>)
    ensures Lawful(e, s) && s.img == img
  {
    var d0: Stage<P> := (k, i, j) => e.premultiply(img(k, i, j), img(3, i, j));
    var d, dx := MakeDowns(e, d0);
    var up, ux := MakeUps(e, d);
    var top := up[0];
    s := Stages(img, d, dx, ux, up, (k, i, j) => e.normal(top(k, i + 1, j + 1), top(3, i + 1, j + 1)));
  }

  function SourceKernels<P>(ar: Arith<P>): Kernels<P> {
    Kernels(
      ar.ofInt(0),
      ar.mul,
      (a, b, c) => ar.mul(ar.add(ar.add(a, ar.mul(ar.lit(2.0), b)), c), ar.lit(0.25)),
      (a, b) => ar.div(ar.add(a, b), ar.lit(2.0)),
      (d, alpha, a, b) => ar.add(d, ar.mul(ar.sub(ar.lit(1.0), alpha), ar.div(ar.add(a, b), ar.lit(2.0)))),
      ar.div)
  }
}
