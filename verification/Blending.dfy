/** polymage_blending.py: blending two images through their Laplacian pyramids, and why blending an image with itself
    changes nothing. */
module Blending {

  datatype Option<T> = None | Some(value: T)

  /** A stage is undefined outside its case condition, and wherever it reads something undefined. */
  type Field = (int, int, int) -> Option<real>

  datatype Size = Size(R: nat, C: nat, L: nat)

  function Halved(n: nat, l: nat): nat {
    if l == 0 then n else Halved(n, l - 1) / 2
  }

  function Weigh5(a: Option<real>, b: Option<real>, c: Option<real>, d: Option<real>, e: Option<real>): Option<real> {
    if a.Some? && b.Some? && c.Some? && d.Some? && e.Some? then
      Some((a.value + b.value * 4.0 + c.value * 6.0 + d.value * 4.0 + e.value) * 0.0625)
    else None
  }

  function Weigh3(a: Option<real>, b: Option<real>, c: Option<real>): Option<real> {
    if a.Some? && b.Some? && c.Some? then Some((a.value + b.value * 6.0 + c.value) * 0.125) else None
  }

  function Weigh2(a: Option<real>, b: Option<real>): Option<real> {
    if a.Some? && b.Some? then Some((a.value * 4.0 + b.value * 4.0) * 0.125) else None
  }

  // pyrDown: lines 63-129, from level l - 1 to level l

  function DownX(n: Size, f: Field, l: nat, c: int, x: int, y: int): Option<real>
    requires l >= 1
  {
    if 2 <= x <= Halved(n.R, l) + 1 && 2 <= y <= Halved(n.C, l - 1) + 1 then
      Weigh5(f(c, 2 * (x - 1) - 2, y), f(c, 2 * (x - 1) - 1, y), f(c, 2 * (x - 1), y), f(c, 2 * (x - 1) + 1, y), f(c, 2 * (x - 1) + 2, y))
    else None
  }

  function DownY(n: Size, g: Field, l: nat, c: int, x: int, y: int): Option<real> {
    if 2 <= x <= Halved(n.R, l) + 1 && 2 <= y <= Halved(n.C, l) + 1 then
      Weigh5(g(c, x, 2 * (y - 1) - 2), g(c, x, 2 * (y - 1) - 1), g(c, x, 2 * (y - 1)), g(c, x, 2 * (y - 1) + 1), g(c, x, 2 * (y - 1) + 2))
    else None
  }

  function PyrDown(n: Size, f: Field, l: nat): Field
    requires l >= 1
  {
    var dx: Field := (c, x, y) => DownX(n, f, l, c, x, y);
    (c, x, y) => DownY(n, dx, l, c, x, y)
  }

  // pyrUp: lines 132-191, from level l + 1 to level l

  function UpX(n: Size, f: Field, l: nat, c: int, x: int, y: int): Option<real> {
    if 2 <= x <= Halved(n.R, l) + 1 && 2 <= y <= Halved(n.C, l + 1) + 1 then
      if x % 2 == 0 then Weigh3(f(c, x / 2, y), f(c, x / 2 + 1, y), f(c, x / 2 + 2, y))
      else Weigh2(f(c, (x - 1) / 2 + 1, y), f(c, (x + 1) / 2 + 1, y))
    else None
  }

  function UpY(n: Size, g: Field, l: nat, c: int, x: int, y: int): Option<real> {
    if 2 <= x <= Halved(n.R, l) + 1 && 2 <= y <= Halved(n.C, l) + 1 then
      if y % 2 == 0 then Weigh3(g(c, x, y / 2), g(c, x, y / 2 + 1), g(c, x, y / 2 + 2))
      else Weigh2(g(c, x, (y - 1) / 2 + 1), g(c, x, (y + 1) / 2 + 1))
    else None
  }

  function PyrUp(n: Size, f: Field, l: nat): Field {
    var ux: Field := (c, x, y) => UpX(n, f, l, c, x, y);
    (c, x, y) => UpY(n, ux, l, c, x, y)
  }

  // The pyramids: lines 194-263.

  function Minus(a: Option<real>, b: Option<real>): Option<real> {
    if a.Some? && b.Some? then Some(a.value - b.value) else None
  }

  function Plus(a: Option<real>, b: Option<real>): Option<real> {
    if a.Some? && b.Some? then Some(a.value + b.value) else None
  }

  function Mixed(a: Option<real>, b: Option<real>, m: Option<real>): Option<real> {
    if a.Some? && b.Some? && m.Some? then Some(a.value * m.value + b.value * (1.0 - m.value)) else None
  }

  /** laplace, blend and collapse: lines 194-228; the mask has one plane */
  function Difference(f: Field, g: Field): Field { (c, x, y) => Minus(f(c, x, y), g(c, x, y)) }

  function Mixture(f: Field, g: Field, m: Field): Field { (c, x, y) => Mixed(f(c, x, y), g(c, x, y), m(0, x, y)) }

  function Sum(f: Field, g: Field): Field { (c, x, y) => Plus(f(c, x, y), g(c, x, y)) }

  function Gauss(n: Size, img: Field, l: nat): Field {
    if l == 0 then img else PyrDown(n, Gauss(n, img, l - 1), l)
  }

  function Lapl(n: Size, img: Field, l: nat): Field {
    if l + 1 >= n.L then Gauss(n, img, l) else Difference(Gauss(n, img, l), PyrUp(n, Gauss(n, img, l + 1), l))
  }

  function Res(n: Size, img1: Field, img2: Field, mask: Field, l: nat): Field {
    Mixture(Lapl(n, img1, l), Lapl(n, img2, l), Gauss(n, mask, l))
  }

  function Out(n: Size, img1: Field, img2: Field, mask: Field, l: nat): Field
    decreases n.L - l
  {
    if l + 1 >= n.L then Res(n, img1, img2, mask, l)
    else Sum(PyrUp(n, Out(n, img1, img2, mask, l + 1), l), Res(n, img1, img2, mask, l))
  }

  /** g is defined where f is, and equal there. */
  ghost predicate Below(f: Field, g: Field) {
    forall c, x, y :: f(c, x, y).Some? ==> g(c, x, y) == f(c, x, y)
  }

  lemma UpXMonotone(n: Size, f: Field, g: Field, l: nat, c: int, x: int, y: int)
    requires Below(f, g) && UpX(n, f, l, c, x, y).Some?
    ensures UpX(n, g, l, c, x, y) == UpX(n, f, l, c, x, y)
  {
  }

  lemma UpYMonotone(n: Size, f: Field, g: Field, l: nat, c: int, x: int, y: int)
    requires Below(f, g) && UpY(n, f, l, c, x, y).Some?
    ensures UpY(n, g, l, c, x, y) == UpY(n, f, l, c, x, y)
  {
  }

  lemma UpMonotone(n: Size, f: Field, g: Field, l: nat)
    requires Below(f, g)
    ensures Below(PyrUp(n, f, l), PyrUp(n, g, l))
  {
    var fx: Field := (c, x, y) => UpX(n, f, l, c, x, y);
    var gx: Field := (c, x, y) => UpX(n, g, l, c, x, y);
    forall c, x, y | fx(c, x, y).Some? ensures gx(c, x, y) == fx(c, x, y) {
      UpXMonotone(n, f, g, l, c, x, y);
    }
    forall c, x, y | PyrUp(n, f, l)(c, x, y).Some? ensures PyrUp(n, g, l)(c, x, y) == PyrUp(n, f, l)(c, x, y) {
      UpYMonotone(n, fx, gx, l, c, x, y);
    }
  }

  lemma MixtureSame(f: Field, m: Field)
    ensures Below(Mixture(f, f, m), f)
  {
    forall c, x, y | Mixture(f, f, m)(c, x, y).Some? ensures f(c, x, y) == Mixture(f, f, m)(c, x, y) {
      var a, t := f(c, x, y).value, m(0, x, y).value;
      assert a * t + a * (1.0 - t) == a;
    }
  }

  /** Adding back what was subtracted, where that is known. */
  lemma Restores(g: Field, up: Field, up': Field, res: Field)
    requires Below(up', up) && Below(res, Difference(g, up))
    ensures Below(Sum(up', res), g)
  {
    forall c, x, y | Sum(up', res)(c, x, y).Some? ensures g(c, x, y) == Sum(up', res)(c, x, y) {
      assert res(c, x, y) == Minus(g(c, x, y), up(c, x, y));
    }
  }

  /** Blending an image with itself gives each Gaussian level back, from the top down, whatever the mask, for any
      number of levels. */
  lemma {:induction false} SelfBlend(n: Size, img: Field, mask: Field, l: nat)
    requires l < n.L
    ensures Below(Out(n, img, img, mask, l), Gauss(n, img, l))
    decreases n.L - l
  {
    var lapl, res := Lapl(n, img, l), Res(n, img, img, mask, l);
    MixtureSame(lapl, Gauss(n, mask, l));
    assert Below(res, lapl);
    if l + 1 < n.L {
      SelfBlend(n, img, mask, l + 1);
      var out, g := Out(n, img, img, mask, l + 1), Gauss(n, img, l + 1);
      UpMonotone(n, out, g, l);
      Restores(Gauss(n, img, l), PyrUp(n, g, l), PyrUp(n, out, l), res);
    }
  }

  // Where the blend is defined, for images and a mask that are.

  datatype Region = Region(x0: int, x1: int, y0: int, y1: int) {
    predicate Has(x: int, y: int) { x0 <= x <= x1 && y0 <= y <= y1 }
  }

  function Least(a: int, b: int): int { if a < b then a else b }

  function Most(a: int, b: int): int { if a > b then a else b }

  ghost predicate DefinedOn(f: Field, planes: nat, r: Region) {
    forall c, x, y :: 0 <= c < planes && r.Has(x, y) ==> f(c, x, y).Some?
  }

  /** PyrDown's result is defined here if its argument is on r. */
  function DownRegion(n: Size, r: Region, l: nat): Region
    requires l >= 1
  {
    Region(Most(2, (r.x0 + 5) / 2), Least(Halved(n.R, l) + 1, r.x1 / 2),
           Most(2, (Most(2, r.y0) + 5) / 2), Least(Halved(n.C, l) + 1, Least(Halved(n.C, l - 1) + 1, r.y1) / 2))
  }

  function UpRegion(n: Size, r: Region, l: nat): Region {
    Region(Most(2, 2 * r.x0), Least(Halved(n.R, l) + 1, 2 * r.x1 - 4),
           Most(2, 2 * Most(2, r.y0)), Least(Halved(n.C, l) + 1, 2 * Least(Halved(n.C, l + 1) + 1, r.y1) - 4))
  }

  function Meet(r: Region, s: Region): Region {
    Region(Most(r.x0, s.x0), Least(r.x1, s.x1), Most(r.y0, s.y0), Least(r.y1, s.y1))
  }

  lemma DownDefined(n: Size, f: Field, planes: nat, r: Region, l: nat)
    requires l >= 1 && DefinedOn(f, planes, r)
    ensures DefinedOn(PyrDown(n, f, l), planes, DownRegion(n, r, l))
  {
    var dx: Field := (c, x, y) => DownX(n, f, l, c, x, y);
    var d := DownRegion(n, r, l);
    forall c, x, y | 0 <= c < planes && d.Has(x, y) ensures PyrDown(n, f, l)(c, x, y).Some? {
      forall v | 2 * (y - 1) - 2 <= v <= 2 * (y - 1) + 2 ensures dx(c, x, v).Some? {
        assert r.Has(2 * (x - 1) - 2, v) && r.Has(2 * (x - 1) + 2, v);
      }
    }
  }

  lemma UpDefined(n: Size, f: Field, planes: nat, r: Region, l: nat)
    requires DefinedOn(f, planes, r)
    ensures DefinedOn(PyrUp(n, f, l), planes, UpRegion(n, r, l))
  {
    var ux: Field := (c, x, y) => UpX(n, f, l, c, x, y);
    var d := UpRegion(n, r, l);
    forall c, x, y | 0 <= c < planes && d.Has(x, y) ensures PyrUp(n, f, l)(c, x, y).Some? {
      forall v | y / 2 <= v <= y / 2 + 2 ensures ux(c, x, v).Some? {
        assert r.Has(x / 2, v) && r.Has(x / 2 + 2, v);
      }
    }
  }

  function Whole(n: Size): Region { Region(0, n.R + 3, 0, n.C + 3) }

  function GaussRegion(n: Size, l: nat): Region {
    if l == 0 then Whole(n) else DownRegion(n, GaussRegion(n, l - 1), l)
  }

  function LaplRegion(n: Size, l: nat): Region {
    if l + 1 >= n.L then GaussRegion(n, l) else Meet(GaussRegion(n, l), UpRegion(n, GaussRegion(n, l + 1), l))
  }

  function OutRegion(n: Size, l: nat): Region
    decreases n.L - l
  {
    if l + 1 >= n.L then LaplRegion(n, l) else Meet(LaplRegion(n, l), UpRegion(n, OutRegion(n, l + 1), l))
  }

  lemma {:induction false} GaussDefined(n: Size, img: Field, planes: nat, l: nat)
    requires DefinedOn(img, planes, Whole(n))
    ensures DefinedOn(Gauss(n, img, l), planes, GaussRegion(n, l))
  {
    if l > 0 {
      GaussDefined(n, img, planes, l - 1);
      DownDefined(n, Gauss(n, img, l - 1), planes, GaussRegion(n, l - 1), l);
    }
  }

  lemma LaplDefined(n: Size, img: Field, l: nat)
    requires DefinedOn(img, 3, Whole(n))
    ensures DefinedOn(Lapl(n, img, l), 3, LaplRegion(n, l))
  {
    GaussDefined(n, img, 3, l);
    if l + 1 < n.L {
      var above := Gauss(n, img, l + 1);
      GaussDefined(n, img, 3, l + 1);
      UpDefined(n, above, 3, GaussRegion(n, l + 1), l);
      BothDefined(Gauss(n, img, l), PyrUp(n, above, l), GaussRegion(n, l), UpRegion(n, GaussRegion(n, l + 1), l));
    }
  }

  lemma BothDefined(f: Field, g: Field, r: Region, s: Region)
    requires DefinedOn(f, 3, r) && DefinedOn(g, 3, s)
    ensures DefinedOn(Difference(f, g), 3, Meet(r, s)) && DefinedOn(Sum(g, f), 3, Meet(r, s))
  {
  }

  lemma ResDefined(n: Size, img1: Field, img2: Field, mask: Field, l: nat)
    requires DefinedOn(img1, 3, Whole(n)) && DefinedOn(img2, 3, Whole(n)) && DefinedOn(mask, 1, Whole(n))
    ensures DefinedOn(Res(n, img1, img2, mask, l), 3, LaplRegion(n, l))
  {
    LaplDefined(n, img1, l);
    LaplDefined(n, img2, l);
    GaussDefined(n, mask, 1, l);
    var a, b, m := Lapl(n, img1, l), Lapl(n, img2, l), Gauss(n, mask, l);
    forall c, x, y | 0 <= c < 3 && LaplRegion(n, l).Has(x, y) ensures Mixture(a, b, m)(c, x, y).Some? {
      assert GaussRegion(n, l).Has(x, y);
      assert m(0, x, y).Some?;
    }
  }

  lemma SumDefined(n: Size, out: Field, res: Field, r: Region, s: Region, l: nat)
    requires DefinedOn(out, 3, r) && DefinedOn(res, 3, s)
    ensures DefinedOn(Sum(PyrUp(n, out, l), res), 3, Meet(s, UpRegion(n, r, l)))
  {
    UpDefined(n, out, 3, r, l);
    BothDefined(res, PyrUp(n, out, l), s, UpRegion(n, r, l));
  }

  lemma OutStep(n: Size, out: Field, res: Field, o: Field, r: Region, s: Region, d: Region, l: nat)
    requires DefinedOn(out, 3, r) && DefinedOn(res, 3, s)
    requires o == Sum(PyrUp(n, out, l), res) && d == Meet(s, UpRegion(n, r, l))
    ensures DefinedOn(o, 3, d)
  {
    SumDefined(n, out, res, r, s, l);
  }

  lemma {:induction false} OutDefined(n: Size, img1: Field, img2: Field, mask: Field, l: nat) returns (o: Field, d: Region)
    requires DefinedOn(img1, 3, Whole(n)) && DefinedOn(img2, 3, Whole(n)) && DefinedOn(mask, 1, Whole(n))
    ensures o == Out(n, img1, img2, mask, l) && d == OutRegion(n, l) && DefinedOn(o, 3, d)
    decreases n.L - l
  {
    ResDefined(n, img1, img2, mask, l);
    var res, s := Res(n, img1, img2, mask, l), LaplRegion(n, l);
    o, d := res, s;
    if l + 1 < n.L {
      var out, r := OutDefined(n, img1, img2, mask, l + 1);
      o, d := Sum(PyrUp(n, out, l), res), Meet(s, UpRegion(n, r, l));
      OutStep(n, out, res, o, r, s, d, l);
    }
  }

  /** The blend of an image with itself is the image, and is defined on the output region. */
  lemma SelfBlendIsImage(n: Size, img: Field, mask: Field, c: int, x: int, y: int)
    requires n.L >= 1 && 0 <= c <= 2 && OutRegion(n, 0).Has(x, y)
    requires DefinedOn(img, 3, Whole(n)) && DefinedOn(mask, 1, Whole(n))
    ensures Out(n, img, img, mask, 0)(c, x, y) == img(c, x, y) && img(c, x, y).Some?
  {
    var o, d := OutDefined(n, img, img, mask, 0);
    SelfBlend(n, img, mask, 0);
    assert o(c, x, y).Some?;
  }

  // The script's four levels.

  lemma FourGauss(n: Size)
    ensures Halved(n.R, 1) == n.R / 2 && Halved(n.R, 2) == n.R / 4 && Halved(n.R, 3) == n.R / 8
    ensures Halved(n.C, 1) == n.C / 2 && Halved(n.C, 2) == n.C / 4 && Halved(n.C, 3) == n.C / 8
    ensures var g := GaussRegion(n, 1); g.x0 == 2 && g.x1 == n.R / 2 + 1 && g.y0 == 3 && n.C / 2 <= g.y1 <= n.C / 2 + 1
    ensures var g := GaussRegion(n, 2); g.x0 == 3 && n.R / 4 <= g.x1 <= n.R / 4 + 1 && g.y0 == 4 && n.C / 4 <= g.y1 <= n.C / 4 + 1
    ensures var g := GaussRegion(n, 3); g.x0 == 4 && n.R / 8 <= g.x1 <= n.R / 8 + 1 && g.y0 == 4 && n.C / 8 <= g.y1 <= n.C / 8 + 1
  {
    assert Halved(n.R, 1) == Halved(n.R, 0) / 2 && Halved(n.R, 2) == Halved(n.R, 1) / 2 && Halved(n.R, 3) == Halved(n.R, 2) / 2;
    assert Halved(n.C, 1) == Halved(n.C, 0) / 2 && Halved(n.C, 2) == Halved(n.C, 1) / 2 && Halved(n.C, 3) == Halved(n.C, 2) / 2;
  }

  /** With four levels the blend is defined on all but 32 rows and columns before and 38 after. */
  lemma FourLevels(n: Size, x: int, y: int)
    requires n.L == 4 && 32 <= x <= n.R - 35 && 32 <= y <= n.C - 35
    ensures OutRegion(n, 0).Has(x, y)
  {
    FourGauss(n);
    var o3, o2, o1 := OutRegion(n, 3), OutRegion(n, 2), OutRegion(n, 1);
    assert o3.x0 == 4 && o3.y0 == 4 && n.R / 8 <= o3.x1 && n.C / 8 <= o3.y1;
    assert o2.x0 == 8 && o2.y0 == 8 && n.R / 4 - 5 <= o2.x1 && n.C / 4 - 5 <= o2.y1;
    assert o1.x0 == 16 && o1.y0 == 16 && n.R / 2 - 15 <= o1.x1 && n.C / 2 - 15 <= o1.y1;
  }

  // Nowhere else.

  /** Plane c is defined on r and nowhere else. */
  ghost predicate DefinedExactly(f: Field, c: int, r: Region) {
    forall x, y {:trigger f(c, x, y)} :: f(c, x, y).Some? <==> r.Has(x, y)
  }

  /** Between two rows (columns) of the coarser level, or at one that has both neighbours. */
  function UpExtent(n: Size, r: Region, l: nat): Region {
    Region(Most(2, 2 * r.x0 - 1), Least(Halved(n.R, l) + 1, 2 * r.x1 - 3),
           Most(2, 2 * Most(2, r.y0) - 1), Least(Halved(n.C, l) + 1, 2 * Least(Halved(n.C, l + 1) + 1, r.y1) - 3))
  }

  lemma DownExactly(n: Size, f: Field, c: int, r: Region, l: nat)
    requires l >= 1 && DefinedExactly(f, c, r)
    ensures DefinedExactly(PyrDown(n, f, l), c, DownRegion(n, r, l))
  {
    var dx: Field := (c, x, y) => DownX(n, f, l, c, x, y);
    forall x, y ensures PyrDown(n, f, l)(c, x, y).Some? <==> DownRegion(n, r, l).Has(x, y) {
      forall v ensures dx(c, x, v).Some? <==>
          2 <= x <= Halved(n.R, l) + 1 && 2 <= v <= Halved(n.C, l - 1) + 1 && r.Has(2 * x - 4, v) && r.Has(2 * x, v)
      {
      }
    }
  }

  lemma UpRowExactly(n: Size, f: Field, c: int, r: Region, l: nat, x: int, v: int)
    requires DefinedExactly(f, c, r)
    ensures UpX(n, f, l, c, x, v).Some? <==>
              2 <= x <= Halved(n.R, l) + 1 && 2 <= v <= Halved(n.C, l + 1) + 1 && r.y0 <= v <= r.y1 && 2 * r.x0 - 1 <= x <= 2 * r.x1 - 3
  {
    var m := x / 2;
    if x % 2 == 0 {
      assert x == 2 * m;
    } else {
      assert (x - 1) / 2 == m && (x + 1) / 2 == m + 1;
    }
  }

  lemma UpColExactly(n: Size, g: Field, c: int, y0: int, y1: int, l: nat, x: int, y: int)
    requires 2 <= x <= Halved(n.R, l) + 1 && forall v {:trigger g(c, x, v)} :: g(c, x, v).Some? <==> y0 <= v <= y1
    ensures UpY(n, g, l, c, x, y).Some? <==> 2 <= y <= Halved(n.C, l) + 1 && 2 * y0 - 1 <= y <= 2 * y1 - 3
  {
    var m := y / 2;
    if y % 2 == 0 {
      assert y == 2 * m;
    } else {
      assert (y - 1) / 2 == m && (y + 1) / 2 == m + 1;
    }
  }

  lemma UpExactly(n: Size, f: Field, c: int, r: Region, l: nat)
    requires DefinedExactly(f, c, r)
    ensures DefinedExactly(PyrUp(n, f, l), c, UpExtent(n, r, l))
  {
    var ux: Field := (c, x, y) => UpX(n, f, l, c, x, y);
    var y0, y1 := Most(2, r.y0), Least(Halved(n.C, l + 1) + 1, r.y1);
    forall x, y ensures PyrUp(n, f, l)(c, x, y).Some? <==> UpExtent(n, r, l).Has(x, y) {
      forall v ensures ux(c, x, v).Some? <==> y0 <= v <= y1 && 2 <= x <= Halved(n.R, l) + 1 && 2 * r.x0 - 1 <= x <= 2 * r.x1 - 3 {
        UpRowExactly(n, f, c, r, l, x, v);
      }
      if 2 <= x <= Halved(n.R, l) + 1 && 2 * r.x0 - 1 <= x <= 2 * r.x1 - 3 {
        UpColExactly(n, ux, c, y0, y1, l, x, y);
      }
    }
  }

  // Masks of ones and of zeros.

  ghost predicate Constant(m: Field, v: real) {
    forall x, y :: m(0, x, y).Some? ==> m(0, x, y) == Some(v)
  }

  lemma DownConstant(n: Size, m: Field, l: nat, v: real)
    requires l >= 1 && Constant(m, v)
    ensures Constant(PyrDown(n, m, l), v)
  {
    var dx: Field := (c, x, y) => DownX(n, m, l, c, x, y);
    forall x, y | dx(0, x, y).Some? ensures dx(0, x, y) == Some(v) {
    }
    forall x, y | PyrDown(n, m, l)(0, x, y).Some? ensures PyrDown(n, m, l)(0, x, y) == Some(v) {
    }
  }

  lemma {:induction false} MaskConstant(n: Size, m: Field, l: nat, v: real)
    requires Constant(m, v)
    ensures Constant(Gauss(n, m, l), v)
  {
    if l > 0 {
      MaskConstant(n, m, l - 1, v);
      DownConstant(n, Gauss(n, m, l - 1), l, v);
    }
  }

  lemma MixtureOne(f: Field, g: Field, m: Field)
    requires Constant(m, 1.0)
    ensures Below(Mixture(f, g, m), f)
  {
  }

  lemma MixtureZero(f: Field, g: Field, m: Field)
    requires Constant(m, 0.0)
    ensures Below(Mixture(f, g, m), g)
  {
  }

  /** Under a mask of ones (`first`) the blend is the first image, under one of zeros the second, at every level. */
  lemma {:induction false} MaskSelects(n: Size, img1: Field, img2: Field, mask: Field, first: bool, l: nat)
    requires l < n.L && Constant(mask, if first then 1.0 else 0.0)
    ensures Below(Out(n, img1, img2, mask, l), Gauss(n, if first then img1 else img2, l))
    decreases n.L - l
  {
    var img := if first then img1 else img2;
    var lapl, res := Lapl(n, img, l), Res(n, img1, img2, mask, l);
    MaskConstant(n, mask, l, if first then 1.0 else 0.0);
    if first {
      MixtureOne(Lapl(n, img1, l), Lapl(n, img2, l), Gauss(n, mask, l));
    } else {
      MixtureZero(Lapl(n, img1, l), Lapl(n, img2, l), Gauss(n, mask, l));
    }
    assert Below(res, lapl);
    if l + 1 < n.L {
      MaskSelects(n, img1, img2, mask, first, l + 1);
      var out, g := Out(n, img1, img2, mask, l + 1), Gauss(n, img, l + 1);
      UpMonotone(n, out, g, l);
      Restores(Gauss(n, img, l), PyrUp(n, g, l), PyrUp(n, out, l), res);
    }
  }

  lemma MaskSelectsBottom(n: Size, img1: Field, img2: Field, mask: Field, first: bool, img: Field, out: Field)
    requires n.L >= 1 && Constant(mask, if first then 1.0 else 0.0) && img == (if first then img1 else img2)
    requires out == Out(n, img1, img2, mask, 0)
    ensures Below(out, img)
  {
    MaskSelects(n, img1, img2, mask, first, 0);
    BottomIs(n, img);
  }

  /** On the output region the selected image comes out. */
  lemma MaskSelectsImage(n: Size, img1: Field, img2: Field, mask: Field, first: bool, img: Field, c: int, x: int, y: int)
    requires n.L >= 1 && 0 <= c <= 2 && OutRegion(n, 0).Has(x, y)
    requires Constant(mask, if first then 1.0 else 0.0) && img == (if first then img1 else img2)
    requires DefinedOn(img1, 3, Whole(n)) && DefinedOn(img2, 3, Whole(n)) && DefinedOn(mask, 1, Whole(n))
    ensures Out(n, img1, img2, mask, 0)(c, x, y) == img(c, x, y) && img(c, x, y).Some?
  {
    var o, d := OutDefined(n, img1, img2, mask, 0);
    MaskSelectsBottom(n, img1, img2, mask, first, img, o);
    assert o(c, x, y).Some?;
  }

  lemma BottomIs(n: Size, img: Field)
    ensures Gauss(n, img, 0) == img
  {
  }

  /** With one level the blend goes from the second image to the first as the mask does from 0 to 1. */
  lemma OneLevel(n: Size, img1: Field, img2: Field, mask: Field, c: int, x: int, y: int)
    requires n.L == 1 && img1(c, x, y).Some? && img2(c, x, y).Some? && mask(0, x, y).Some?
    ensures Out(n, img1, img2, mask, 0)(c, x, y).Some?
    ensures Out(n, img1, img2, mask, 0)(c, x, y).value - img2(c, x, y).value == mask(0, x, y).value * (img1(c, x, y).value - img2(c, x, y).value)
  {
    var a, b, m := img1(c, x, y).value, img2(c, x, y).value, mask(0, x, y).value;
    assert a * m + b * (1.0 - m) - b == m * (a - b);
  }

  // The filters of the pyramids.

  predicate StepGrows(A: int -> real, n: int, d: real) {
    A(n + 1) - A(n) == A(n) - A(n - 1) + d
  }

  ghost predicate Quadratic(A: int -> real, d: real) {
    forall n :: StepGrows(A, n, d)
  }

  /** [1 4 6 4 1] / 16 around 2 (x - 1) */
  function Halving(A: int -> real, x: int): real {
    (A(2 * x - 4) + 4.0 * A(2 * x - 3) + 6.0 * A(2 * x - 2) + 4.0 * A(2 * x - 1) + A(2 * x)) / 16.0
  }

  /** [1 6 1] / 8 or [4 4] / 8 of that */
  function Doubling(A: int -> real, x: int): real {
    if x % 2 == 0 then (Halving(A, x / 2) + 6.0 * Halving(A, x / 2 + 1) + Halving(A, x / 2 + 2)) / 8.0
    else (Halving(A, (x - 1) / 2 + 1) + Halving(A, (x + 1) / 2 + 1)) / 2.0
  }

  lemma AxisBackEven(A: int -> real, d: real, m: int)
    requires Quadratic(A, d)
    ensures (Halving(A, m) + 6.0 * Halving(A, m + 1) + Halving(A, m + 2)) / 8.0 == A(2 * m) + d
  {
    var x := 2 * m;
    assert StepGrows(A, x - 3, d) && StepGrows(A, x - 2, d) && StepGrows(A, x - 1, d) && StepGrows(A, x, d);
    assert StepGrows(A, x + 1, d) && StepGrows(A, x + 2, d) && StepGrows(A, x + 3, d);
  }

  lemma AxisBackOdd(A: int -> real, d: real, m: int)
    requires Quadratic(A, d)
    ensures (Halving(A, m + 1) + Halving(A, m + 2)) / 2.0 == A(2 * m + 1) + d
  {
    var x := 2 * m + 1;
    assert StepGrows(A, x - 2, d) && StepGrows(A, x - 1, d) && StepGrows(A, x, d) && StepGrows(A, x + 1, d) && StepGrows(A, x + 2, d);
  }

  lemma AxisBack(A: int -> real, d: real, x: int)
    requires Quadratic(A, d)
    ensures Doubling(A, x) == A(x) + d
  {
    var m := x / 2;
    if x % 2 == 0 {
      AxisBackEven(A, d, m);
    } else {
      AxisBackOdd(A, d, m);
      assert (x - 1) / 2 == m && (x + 1) / 2 == m + 1;
    }
  }

  ghost predicate Separate(f: Field, c: int, A: int -> real, B: int -> real) {
    forall x, y {:trigger f(c, x, y)} :: f(c, x, y).Some? ==> f(c, x, y) == Some(A(x) + B(y))
  }

  lemma HalvedRow(n: Size, f: Field, l: nat, c: int, A: int -> real, B: int -> real, x: int, y: int)
    requires l >= 1 && Separate(f, c, A, B) && DownX(n, f, l, c, x, y).Some?
    ensures DownX(n, f, l, c, x, y).value == Halving(A, x) + B(y)
  {
    assert f(c, 2 * (x - 1) - 2, y) == Some(A(2 * x - 4) + B(y)) && f(c, 2 * (x - 1) - 1, y) == Some(A(2 * x - 3) + B(y));
    assert f(c, 2 * (x - 1), y) == Some(A(2 * x - 2) + B(y)) && f(c, 2 * (x - 1) + 1, y) == Some(A(2 * x - 1) + B(y));
    assert f(c, 2 * (x - 1) + 2, y) == Some(A(2 * x) + B(y));
  }

  lemma HalvedCol(n: Size, g: Field, l: nat, c: int, a: real, B: int -> real, x: int, y: int)
    requires (forall v {:trigger g(c, x, v)} :: g(c, x, v).Some? ==> g(c, x, v).value == a + B(v)) && DownY(n, g, l, c, x, y).Some?
    ensures DownY(n, g, l, c, x, y).value == a + Halving(B, y)
  {
    assert g(c, x, 2 * (y - 1) - 2).value == a + B(2 * y - 4) && g(c, x, 2 * (y - 1) - 1).value == a + B(2 * y - 3);
    assert g(c, x, 2 * (y - 1)).value == a + B(2 * y - 2) && g(c, x, 2 * (y - 1) + 1).value == a + B(2 * y - 1);
    assert g(c, x, 2 * (y - 1) + 2).value == a + B(2 * y);
  }

  lemma HalvedBoth(n: Size, f: Field, l: nat, c: int, A: int -> real, B: int -> real, x: int, y: int)
    requires l >= 1 && Separate(f, c, A, B) && PyrDown(n, f, l)(c, x, y).Some?
    ensures PyrDown(n, f, l)(c, x, y).value == Halving(A, x) + Halving(B, y)
  {
    var dx: Field := (c, x, y) => DownX(n, f, l, c, x, y);
    forall v | dx(c, x, v).Some? ensures dx(c, x, v).value == Halving(A, x) + B(v) {
      HalvedRow(n, f, l, c, A, B, x, v);
    }
    HalvedCol(n, dx, l, c, Halving(A, x), B, x, y);
  }

  lemma DoubledBoth(n: Size, f: Field, l: nat, c: int, A: int -> real, B: int -> real, x: int, y: int)
    requires forall u, v {:trigger f(c, u, v)} :: f(c, u, v).Some? ==> f(c, u, v).value == Halving(A, u) + Halving(B, v)
    requires PyrUp(n, f, l)(c, x, y).Some?
    ensures PyrUp(n, f, l)(c, x, y).value == Doubling(A, x) + Doubling(B, y)
  {
    var ux: Field := (c, x, y) => UpX(n, f, l, c, x, y);
    forall v | ux(c, x, v).Some? ensures ux(c, x, v).value == Doubling(A, x) + Halving(B, v) {
    }
  }

  /** Downsampled and upsampled again, a quadratic surface comes back raised by its second differences, and an affine one
      as it was. So the details of a quadratic image are their negative. */
  lemma QuadraticDetails(n: Size, img: Field, c: int, A: int -> real, B: int -> real, d: real, d': real, x: int, y: int)
    requires n.L > 1 && Separate(img, c, A, B) && Quadratic(A, d) && Quadratic(B, d') && Lapl(n, img, 0)(c, x, y).Some?
    ensures Lapl(n, img, 0)(c, x, y).value == -(d + d')
  {
    var g := Gauss(n, img, 1);
    assert g == PyrDown(n, Gauss(n, img, 0), 1) && Gauss(n, img, 0) == img;
    forall u, v | g(c, u, v).Some? ensures g(c, u, v).value == Halving(A, u) + Halving(B, v) {
      HalvedBoth(n, img, 1, c, A, B, u, v);
    }
    DoubledBoth(n, g, 0, c, A, B, x, y);
    AxisBack(A, d, x);
    AxisBack(B, d', y);
  }

  /** five pixels of a column, weighted 1 4 6 4 1 */
  function Column(f: Field, c: int, x: int, y: int): real
    requires forall u :: x - 2 <= u <= x + 2 ==> f(c, u, y).Some?
  {
    f(c, x - 2, y).value + 4.0 * f(c, x - 1, y).value + 6.0 * f(c, x, y).value + 4.0 * f(c, x + 1, y).value + f(c, x + 2, y).value
  }

  /** A downsampled pixel is the 5 x 5 binomial mean around twice its place. */
  lemma DownWeights(n: Size, f: Field, l: nat, c: int, x: int, y: int)
    requires l >= 1 && PyrDown(n, f, l)(c, x, y).Some?
    requires forall u, v {:trigger f(c, u, v)} :: 2 * x - 4 <= u <= 2 * x && 2 * y - 4 <= v <= 2 * y ==> f(c, u, v).Some?
    ensures 256.0 * PyrDown(n, f, l)(c, x, y).value ==
            Column(f, c, 2 * x - 2, 2 * y - 4) + 4.0 * Column(f, c, 2 * x - 2, 2 * y - 3) + 6.0 * Column(f, c, 2 * x - 2, 2 * y - 2)
            + 4.0 * Column(f, c, 2 * x - 2, 2 * y - 1) + Column(f, c, 2 * x - 2, 2 * y)
  {
    var dx: Field := (c, x, y) => DownX(n, f, l, c, x, y);
    forall v | 2 * y - 4 <= v <= 2 * y && dx(c, x, v).Some? ensures 16.0 * dx(c, x, v).value == Column(f, c, 2 * x - 2, v) {
    }
  }
}
