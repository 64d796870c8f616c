/** The camera pipeline as a function of the raw Bayer image: polymage_camera_pipe.py:94-264, the same stages that
    camera_pipe_polymage_naive.cpp stores one by one. */
module CameraSpec {
  import opened Buffers

  /** The pixel expressions of the loop nests. The tiling is proved correct for any of them. */
  datatype Kernels<!P> = Kernels(
    denoise: (P, P, P, P, P) -> P,                    // two vertical and two horizontal neighbours, the pixel
    guess: (P, P, P, P) -> P,                         // green, from a horizontal and a vertical pair
    shift: (P, P, P, P, P) -> P,                      // colour at a green site: green, two greens, two colours
    diagonal: (P, P, P, P, P, P, P, P, P) -> P,       // colour at the other colour's site: green, then two greens
                                                      // and two colours on each diagonal
    colour: (int, P, P, P) -> P,                      // output channel, red, green, blue
    curve: P -> P)

  function Denoised<P>(e: Kernels<P>, f: Stage<P>, i: int, j: int): P {
    e.denoise(f(0, i - 2, j), f(0, i + 2, j), f(0, i, j - 2), f(0, i, j + 2), f(0, i, j))
  }

  function Guess<P>(e: Kernels<P>, h: Stage<P>, dj: int, v: Stage<P>, di: int, i: int, j: int): P {
    e.guess(h(0, i, j + dj), h(0, i, j), v(0, i + di, j), v(0, i, j))
  }

  function Shifted<P>(e: Kernels<P>, green: Stage<P>, q: Stage<P>, c: Stage<P>, di: int, dj: int, i: int, j: int): P {
    e.shift(green(0, i, j), q(0, i, j), q(0, i + di, j + dj), c(0, i, j), c(0, i + di, j + dj))
  }

  function Diagonal<P>(e: Kernels<P>, green: Stage<P>, q: Stage<P>, c: Stage<P>, d: int, i: int, j: int): P {
    e.diagonal(green(0, i, j), q(0, i, j), q(0, i + d, j - d), c(0, i, j), c(0, i + d, j - d),
                 q(0, i, j - d), q(0, i + d, j), c(0, i, j - d), c(0, i + d, j))
  }

  // How one loop nest's stage follows from those it reads. Stages have one plane, 0, unless said otherwise.

  ghost predicate DenoiseLaw<P(!new)>(e: Kernels<P>, f: Stage<P>, g: Stage<P>) {
    forall i, j {:trigger g(0, i, j)} :: g(0, i, j) == Denoised(e, f, i, j)
  }

  /** plane c of the deinterleaved image */
  ghost predicate SampleLaw<P(!new)>(f: Stage<P>, c: int, di: int, dj: int, g: Stage<P>) {
    forall i, j {:trigger g(c, i, j)} :: g(c, i, j) == f(0, 2 * i + di, 2 * j + dj)
  }

  ghost predicate PlaneLaw<P(!new)>(f: Stage<P>, c: int, g: Stage<P>) {
    forall i, j {:trigger g(0, i, j)} :: g(0, i, j) == f(c, i, j)
  }

  ghost predicate GuessLaw<P(!new)>(e: Kernels<P>, h: Stage<P>, dj: int, v: Stage<P>, di: int, g: Stage<P>) {
    forall i, j {:trigger g(0, i, j)} :: g(0, i, j) == Guess(e, h, dj, v, di, i, j)
  }

  ghost predicate ShiftLaw<P(!new)>(e: Kernels<P>, green: Stage<P>, q: Stage<P>, c: Stage<P>, di: int, dj: int, g: Stage<P>) {
    forall i, j {:trigger g(0, i, j)} :: g(0, i, j) == Shifted(e, green, q, c, di, dj, i, j)
  }

  ghost predicate DiagonalLaw<P(!new)>(e: Kernels<P>, green: Stage<P>, q: Stage<P>, c: Stage<P>, d: int, g: Stage<P>) {
    forall i, j {:trigger g(0, i, j)} :: g(0, i, j) == Diagonal(e, green, q, c, d, i, j)
  }

  /** even columns from a, odd ones from b */
  ghost predicate WeaveColsLaw<P(!new)>(a: Stage<P>, b: Stage<P>, g: Stage<P>) {
    forall i, j {:trigger g(0, i, j)} :: g(0, i, j) == if j % 2 == 0 then a(0, i, j / 2) else b(0, i, j / 2)
  }

  ghost predicate WeaveRowsLaw<P(!new)>(a: Stage<P>, b: Stage<P>, g: Stage<P>) {
    forall i, j {:trigger g(0, i, j)} :: g(0, i, j) == if i % 2 == 0 then a(0, i / 2, j) else b(0, i / 2, j)
  }

  ghost predicate ColourLaw<P(!new)>(e: Kernels<P>, r: Stage<P>, g: Stage<P>, b: Stage<P>, out: Stage<P>) {
    forall k, i, j {:trigger out(k, i, j)} :: out(k, i, j) == e.colour(k, r(0, i, j), g(0, i, j), b(0, i, j))
  }

  ghost predicate CurveLaw<P(!new)>(e: Kernels<P>, f: Stage<P>, g: Stage<P>) {
    forall k, i, j {:trigger g(k, i, j)} :: g(k, i, j) == e.curve(f(k, i, j))
  }

  /** The four channels of the Bayer array; x_y is colour x at a site of colour y, and gr, gb are the green sites
      in red and in blue rows. */
  datatype Sensors<!P> = Sensors(raw: Stage<P>, denoised: Stage<P>, deint: Stage<P>,
                                 r_r: Stage<P>, g_gr: Stage<P>, b_b: Stage<P>, g_gb: Stage<P>)

  ghost predicate SensorLaws<P(!new)>(e: Kernels<P>, s: Sensors<P>) {
    && DenoiseLaw(e, s.raw, s.denoised)
    && SampleLaw(s.denoised, 0, 0, 0, s.deint) && SampleLaw(s.denoised, 1, 0, 1, s.deint)
    && SampleLaw(s.denoised, 2, 1, 0, s.deint) && SampleLaw(s.denoised, 3, 1, 1, s.deint)
    && PlaneLaw(s.deint, 0, s.g_gr) && PlaneLaw(s.deint, 1, s.r_r) && PlaneLaw(s.deint, 2, s.b_b) && PlaneLaw(s.deint, 3, s.g_gb)
  }

  /** One colour, interpolated to every site: two half-height images with their columns woven, then their rows. */
  datatype Channel<!P> = Channel(even1: Stage<P>, odd1: Stage<P>, even2: Stage<P>, odd2: Stage<P>,
                                 x1: Stage<P>, x2: Stage<P>, all: Stage<P>)

  ghost predicate ChannelLaws<P(!new)>(c: Channel<P>) {
    WeaveColsLaw(c.even1, c.odd1, c.x1) && WeaveColsLaw(c.even2, c.odd2, c.x2) && WeaveRowsLaw(c.x1, c.x2, c.all)
  }

  datatype Stages<!P> = Stages(sensors: Sensors<P>, green: Channel<P>, red: Channel<P>, blue: Channel<P>,
                               corrected: Stage<P>, process: Stage<P>)

  /** green is g_gr, g_r, g_b, g_gb */
  ghost predicate GreenLaws<P(!new)>(e: Kernels<P>, s: Sensors<P>, g: Channel<P>) {
    && g.even1 == s.g_gr && GuessLaw(e, s.g_gr, 1, s.g_gb, -1, g.odd1)
    && GuessLaw(e, s.g_gb, -1, s.g_gr, 1, g.even2) && g.odd2 == s.g_gb
    && ChannelLaws(g)
  }

  /** red is r_gr, r_r, r_b, r_gb */
  ghost predicate RedLaws<P(!new)>(e: Kernels<P>, s: Sensors<P>, g: Channel<P>, r: Channel<P>) {
    && ShiftLaw(e, s.g_gr, g.odd1, s.r_r, 0, -1, r.even1) && r.odd1 == s.r_r
    && DiagonalLaw(e, g.even2, g.odd1, s.r_r, 1, r.even2) && ShiftLaw(e, s.g_gb, g.odd1, s.r_r, 1, 0, r.odd2)
    && ChannelLaws(r)
  }

  /** blue is b_gr, b_r, b_b, b_gb */
  ghost predicate BlueLaws<P(!new)>(e: Kernels<P>, s: Sensors<P>, g: Channel<P>, b: Channel<P>) {
    && ShiftLaw(e, s.g_gr, g.even2, s.b_b, -1, 0, b.even1) && DiagonalLaw(e, g.odd1, g.even2, s.b_b, -1, b.odd1)
    && b.even2 == s.b_b && ShiftLaw(e, s.g_gb, g.even2, s.b_b, 0, 1, b.odd2)
    && ChannelLaws(b)
  }

  ghost predicate Lawful<P(!new)>(e: Kernels<P>, s: Stages<P>) {
    && SensorLaws(e, s.sensors) && GreenLaws(e, s.sensors, s.green)
    && RedLaws(e, s.sensors, s.green, s.red) && BlueLaws(e, s.sensors, s.green, s.blue)
    && ColourLaw(e, s.red.all, s.green.all, s.blue.all, s.corrected) && CurveLaw(e, s.corrected, s.process)
  }

  // Every raw image has such a family.

  lemma MakeDeint<P(!new)>(f: Stage<P>) returns (g: Stage<P>)
    ensures SampleLaw(f, 0, 0, 0, g) && SampleLaw(f, 1, 0, 1, g) && SampleLaw(f, 2, 1, 0, g) && SampleLaw(f, 3, 1, 1, g)
  {
    g := (k, i, j) =>
      if k == 0 then f(0, 2 * i + 0, 2 * j + 0) else if k == 1 then f(0, 2 * i + 0, 2 * j + 1)
      else if k == 2 then f(0, 2 * i + 1, 2 * j + 0) else f(0, 2 * i + 1, 2 * j + 1);
  }

  lemma MakeSensors<P(!new)>(e: Kernels<P>, raw: Stage<P>) returns (s: Sensors<P>)
    ensures SensorLaws(e, s) && s.raw == raw
  {
    var denoised: Stage<P> := (k, i, j) => Denoised(e, raw, i, j);
    var deint := MakeDeint(denoised);
    s := Sensors(raw, denoised, deint, (k, i, j) => deint(1, i, j), (k, i, j) => deint(0, i, j),
                 (k, i, j) => deint(2, i, j), (k, i, j) => deint(3, i, j));
  }

  lemma MakeChannel<P(!new)>(even1: Stage<P>, odd1: Stage<P>, even2: Stage<P>, odd2: Stage<P>) returns (c: Channel<P>)
    ensures ChannelLaws(c) && c.even1 == even1 && c.odd1 == odd1 && c.even2 == even2 && c.odd2 == odd2
  {
    var x1: Stage<P> := (k, i, j) => if j % 2 == 0 then even1(0, i, j / 2) else odd1(0, i, j / 2);
    var x2: Stage<P> := (k, i, j) => if j % 2 == 0 then even2(0, i, j / 2) else odd2(0, i, j / 2);
    c := Channel(even1, odd1, even2, odd2, x1, x2, (k, i, j) => if i % 2 == 0 then x1(0, i / 2, j) else x2(0, i / 2, j));
  }

  lemma MakeGuess<P(!new)>(e: Kernels<P>, h: Stage<P>, dj: int, v: Stage<P>, di: int) returns (g: Stage<P>)
    ensures GuessLaw(e, h, dj, v, di, g)
  {
    g := (k, i, j) => Guess(e, h, dj, v, di, i, j);
  }

  lemma MakeShift<P(!new)>(e: Kernels<P>, green: Stage<P>, q: Stage<P>, c: Stage<P>, di: int, dj: int) returns (g: Stage<P>)
    ensures ShiftLaw(e, green, q, c, di, dj, g)
  {
    g := (k, i, j) => Shifted(e, green, q, c, di, dj, i, j);
  }

  lemma MakeDiagonal<P(!new)>(e: Kernels<P>, green: Stage<P>, q: Stage<P>, c: Stage<P>, d: int) returns (g: Stage<P>)
    ensures DiagonalLaw(e, green, q, c, d, g)
  {
    g := (k, i, j) => Diagonal(e, green, q, c, d, i, j);
  }

  lemma MakeColours<P(!new)>(e: Kernels<P>, s: Sensors<P>) returns (g: Channel<P>, r: Channel<P>, b: Channel<P>)
    ensures GreenLaws(e, s, g) && RedLaws(e, s, g, r) && BlueLaws(e, s, g, b)
  {
    var g_r := MakeGuess(e, s.g_gr, 1, s.g_gb, -1);
    var g_b := MakeGuess(e, s.g_gb, -1, s.g_gr, 1);
    g := MakeChannel(s.g_gr, g_r, g_b, s.g_gb);
    var r_gr := MakeShift(e, s.g_gr, g_r, s.r_r, 0, -1);
    var r_b := MakeDiagonal(e, g_b, g_r, s.r_r, 1);
    var r_gb := MakeShift(e, s.g_gb, g_r, s.r_r, 1, 0);
    r := MakeChannel(r_gr, s.r_r, r_b, r_gb);
    var b_gr := MakeShift(e, s.g_gr, g_b, s.b_b, -1, 0);
    var b_r := MakeDiagonal(e, g_r, g_b, s.b_b, -1);
    var b_gb := MakeShift(e, s.g_gb, g_b, s.b_b, 0, 1);
    b := MakeChannel(b_gr, b_r, s.b_b, b_gb);
  }

  lemma MakeStages<P(!new)>(e: Kernels<P>, raw: Stage<P>) returns (s: Stages<P>)
    ensures Lawful(e, s) && s.sensors.raw == raw
  {
    var sensors := MakeSensors(e, raw);
    var g, r, b := MakeColours(e, sensors);
    var corrected: Stage<P> := (k, i, j) => e.colour(k, r.all(0, i, j), g.all(0, i, j), b.all(0, i, j));
    s := Stages(sensors, g, r, b, corrected, (k, i, j) => e.curve(corrected(k, i, j)));
  }
}
