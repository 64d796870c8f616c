/** Levels over full-size buffers: all of interpolate_polymage_naive.cpp, and levels 5 to 9 down and 8 to 4 up of
    interpolate_polymage.cpp. */
module InterpolateNaive {
  import opened Buffers
  import opened Nests
  import opened InterpolateSpec
  import opened InterpolateStages

  /** a stage of R x C cells with its border */
  function WithBorder(R: int, C: int): Box { Box(0, R + 1, 0, C + 1) }

  function Extent(l: nat): Box { WithBorder(Rows(l), Cols(l)) }

  function AllBorders(R: int, C: int): Borders { Borders(true, true, true, true, 0, R + 1, 0, C + 1) }

  lemma Halved(l: nat)
    requires l < 9
    ensures Rows(l) == 2 * Rows(l + 1) && Cols(l) == 2 * Cols(l + 1)
  {
  }

  lemma WholeFits<P(0)>(w: Window<P>, R: int, C: int)
    requires R >= 1 && C >= 1 && Sized(w, 4, WithBorder(R, C))
    ensures CanStoreBorders(w, R, C, AllBorders(R, C)) && CanStore(w, 4, Box(1, R, 1, C))
    ensures Covers(WithBorder(R, C), Box(1, R, 1, C), AllBorders(R, C), R, C) && Inside(Box(1, R, 1, C), R, C)
    ensures InnerOf(WithBorder(R, C), R, C) == Box(1, R, 1, C)
  {
  }

  /** interpolate_polymage_naive.cpp:127-142 */
  method Premultiplied<P(0, !new)>(e: Kernels<P>, img: Window<P>, stray: (int, int, int) -> P, ghost f: Stage<P>, ghost g: Stage<P>)
    returns (d: Window<P>)
    requires Known(img, 4, Extent(0), f) && PremultiplyLaw(e, f, g)
    ensures Known(d, 4, Extent(0), g) && fresh(d.buf.data)
  {
    d := NewWindow(4, Extent(0), stray);
    FillBox(d, 4, Extent(0),
            (k, i, j) requires img.buf.Valid() reads img.buf.data => e.premultiply(img.At(k, i, j), img.At(3, i, j)),
            Extent(0), g);
  }

  /** level l + 1 from level l: interpolate_polymage_naive.cpp:143-230 and its copies */
  method DownWhole<P(0, !new)>(e: Kernels<P>, l: nat, src: Window<P>, stray: (int, int, int) -> P,
                               ghost f: Stage<P>, ghost x: Stage<P>, ghost g: Stage<P>)
    returns (d: Window<P>)
    requires l < 9 && Known(src, 4, Extent(l), f) && LawfulDown(e, l, f, x, g)
    ensures Known(d, 4, Extent(l + 1), g) && fresh(d.buf.data)
  {
    Halved(l);
    var R, C, Cx := Rows(l + 1), Cols(l + 1), Cols(l);
    var dx := NewWindow(4, WithBorder(R, Cx), stray);
    WholeFits(dx, R, Cx);
    DownRowsStage(e, src, dx, R, Cx, AllBorders(R, Cx), Box(1, R, 1, Cx), WithBorder(R, Cx), Extent(l), f, x);
    d := NewWindow(4, WithBorder(R, C), stray);
    WholeFits(d, R, C);
    DownColsStage(e, dx, d, R, C, AllBorders(R, C), Box(1, R, 1, C), WithBorder(R, C), WithBorder(R, Cx), x, g);
  }

  /** level l from level l + 1: interpolate_polymage_naive.cpp:1411-1498 and its copies */
  method UpWhole<P(0, !new)>(e: Kernels<P>, l: nat, above: Window<P>, d: Window<P>, stray: (int, int, int) -> P,
                             ghost fa: Stage<P>, ghost f: Stage<P>, ghost h: Stage<P>, ghost g: Stage<P>)
    returns (u: Window<P>)
    requires l < 9 && Known(above, 4, Extent(l + 1), fa) && Known(d, 4, Extent(l), f) && LawfulUp(e, l, fa, f, h, g)
    ensures Known(u, 4, Extent(l), g) && fresh(u.buf.data)
  {
    Halved(l);
    var R, C, Cx := Rows(l), Cols(l), Cols(l + 1);
    var ux := NewWindow(4, WithBorder(R, Cx), stray);
    WholeFits(ux, R, Cx);
    UpRowsStage(e, above, ux, R, Cx, AllBorders(R, Cx), Box(1, R, 1, Cx), WithBorder(R, Cx), Extent(l + 1), fa, h);
    u := NewWindow(4, WithBorder(R, C), stray);
    WholeFits(u, R, C);
    BlendStage(e, d, ux, u, R, C, AllBorders(R, C), Box(1, R, 1, C), WithBorder(R, C), Extent(l), WithBorder(R, Cx), f, h, g);
  }

  /** The first levels of the downsampled pyramid are there. */
  ghost predicate Downs<P(0)>(w: seq<Window<P>>, f: seq<Stage<P>>)
    requires |w| <= |f|
    reads set l | 0 <= l < |w| :: w[l].buf.data
  {
    forall l {:trigger w[l]} :: 0 <= l < |w| ==> Known(w[l], 4, Extent(l), f[l])
  }

  /** the rest of the downsampled pyramid */
  method DownRest<P(0, !new)>(e: Kernels<P>, w: seq<Window<P>>, stray: (int, int, int) -> P, ghost s: Stages<P>)
    returns (all: seq<Window<P>>)
    requires Lawful(e, s) && 1 <= |w| <= 10 && Downs(w, s.d)
    ensures |all| == 10 && Downs(all, s.d)
  {
    all := w;
    while |all| < 10
      invariant 1 <= |all| <= 10 && Downs(all, s.d)
    {
      ghost var l: nat := |all| - 1;
      assert Known(all[l], 4, Extent(l), s.d[l]) && LawfulDown(e, l, s.d[l], s.dx[l], s.d[l + 1]);
      var next := DownWhole(e, |all| - 1, all[|all| - 1], stray, s.d[l], s.dx[l], s.d[l + 1]);
      all := all + [next];
    }
  }

  /** interpolated levels from 9 up to `stop` */
  method UpRest<P(0, !new)>(e: Kernels<P>, w: seq<Window<P>>, stop: nat, stray: (int, int, int) -> P, ghost s: Stages<P>)
    returns (u: Window<P>)
    requires Lawful(e, s) && |w| == 10 && Downs(w, s.d) && stop <= 9
    ensures Known(u, 4, Extent(stop), s.up[stop]) && Downs(w, s.d)
  {
    u := w[9];
    var l := 9;
    while l > stop
      invariant stop <= l <= 9
      invariant Known(u, 4, Extent(l), s.up[l]) && Downs(w, s.d)
    {
      l := l - 1;
      assert Known(w[l], 4, Extent(l), s.d[l]) && LawfulUp(e, l, s.up[l + 1], s.d[l], s.ux[l], s.up[l]);
      u := UpWhole(e, l, u, w[l], stray, s.up[l + 1], s.d[l], s.ux[l], s.up[l]);
    }
  }

  /** the result: 3 planes of 2560 x 1536 pixels */
  const Image := Box(0, 2559, 0, 1535)

  /** interpolate_polymage_naive.cpp:1499-1514 */
  method Normalized<P(0, !new)>(e: Kernels<P>, u: Window<P>, stray: (int, int, int) -> P, ghost f: Stage<P>, ghost g: Stage<P>)
    returns (out: Window<P>)
    requires Known(u, 4, Extent(0), f) && NormalLaw(e, f, g)
    ensures Known(out, 3, Image, g) && CanStore(out, 3, Image)
  {
    out := NewWindow(3, Image, stray);
    FillBox(out, 3, Image,
            (k, i, j) requires u.buf.Valid() reads u.buf.data => e.normal(u.At(k, i + 1, j + 1), u.At(3, i + 1, j + 1)),
            Image, g);
  }

  /** interpolate_polymage_naive.cpp:127-1514 */
  method Naive<P(0, !new)>(e: Kernels<P>, img: Window<P>, stray: (int, int, int) -> P, ghost s: Stages<P>)
    returns (out: Window<P>)
    requires Lawful(e, s) && Known(img, 4, Extent(0), s.img)
    ensures Known(out, 3, Image, s.out) && CanStore(out, 3, Image)
  {
    var d := Premultiplied(e, img, stray, s.img, s.d[0]);
    var w := DownRest(e, [d], stray, s);
    var u := UpRest(e, w, 0, stray, s);
    out := Normalized(e, u, stray, s.up[0], s.out);
  }
}
