/** The camera pipeline's integers: the sensor samples it keeps, and for which raw images no 16-bit store of a colour
    wraps. */
module CameraInts {
  import opened Buffers
  import opened CameraSpec
  import opened CameraStages
  import opened CameraPads
  import opened CameraEqual

  lemma Half(n: int)
    ensures (2 * n) / 2 == n == (2 * n + 1) / 2 && (2 * n) % 2 == 0 && (2 * n + 1) % 2 == 1
  {
  }

  /** what the two weavings put at a site of row parity di and column parity dj */
  lemma Woven<P(!new)>(c: Channel<P>, u: int, v: int)
    requires ChannelLaws(c)
    ensures c.all(0, 2 * u, 2 * v) == c.even1(0, u, v) && c.all(0, 2 * u, 2 * v + 1) == c.odd1(0, u, v)
    ensures c.all(0, 2 * u + 1, 2 * v) == c.even2(0, u, v) && c.all(0, 2 * u + 1, 2 * v + 1) == c.odd2(0, u, v)
  {
    Half(u);
    Half(v);
    assert c.all(0, 2 * u, 2 * v) == c.x1(0, u, 2 * v) && c.all(0, 2 * u, 2 * v + 1) == c.x1(0, u, 2 * v + 1);
    assert c.all(0, 2 * u + 1, 2 * v) == c.x2(0, u, 2 * v) && c.all(0, 2 * u + 1, 2 * v + 1) == c.x2(0, u, 2 * v + 1);
  }

  /** Interpolation leaves each sensor's own samples alone: red at (even, odd) sites, blue at (odd, even), green at
      the rest are the denoised image. */
  lemma SensorsKept<P(!new)>(e: Kernels<P>, s: Stages<P>, u: int, v: int)
    requires Lawful(e, s)
    ensures s.red.all(0, 2 * u, 2 * v + 1) == s.sensors.denoised(0, 2 * u, 2 * v + 1)
    ensures s.blue.all(0, 2 * u + 1, 2 * v) == s.sensors.denoised(0, 2 * u + 1, 2 * v)
    ensures s.green.all(0, 2 * u, 2 * v) == s.sensors.denoised(0, 2 * u, 2 * v)
    ensures s.green.all(0, 2 * u + 1, 2 * v + 1) == s.sensors.denoised(0, 2 * u + 1, 2 * v + 1)
  {
    Woven(s.red, u, v);
    Woven(s.blue, u, v);
    Woven(s.green, u, v);
    SensorSamples(e, s.sensors, u, v);
  }

  lemma SensorSamples<P(!new)>(e: Kernels<P>, s: Sensors<P>, u: int, v: int)
    requires SensorLaws(e, s)
    ensures s.g_gr(0, u, v) == s.denoised(0, 2 * u, 2 * v) && s.r_r(0, u, v) == s.denoised(0, 2 * u, 2 * v + 1)
    ensures s.b_b(0, u, v) == s.denoised(0, 2 * u + 1, 2 * v) && s.g_gb(0, u, v) == s.denoised(0, 2 * u + 1, 2 * v + 1)
  {
    assert s.g_gr(0, u, v) == s.deint(0, u, v) && s.r_r(0, u, v) == s.deint(1, u, v);
    assert s.b_b(0, u, v) == s.deint(2, u, v) && s.g_gb(0, u, v) == s.deint(3, u, v);
  }

  // C arithmetic

  /** conversion to a 16-bit short */
  function Wrap(n: int): (r: int)
    ensures -32768 <= r <= 32767 && (r - n) % 65536 == 0 && (-32768 <= n <= 32767 ==> r == n)
  {
    (n + 32768) % 65536 - 32768
  }

  /** C division of an int by a positive constant */
  function Quotient(n: int, d: nat): int
    requires d > 0
  {
    if n >= 0 then n / d else -(-n / d)
  }

  /** It rounds toward zero. */
  lemma QuotientRounds(n: int, d: nat)
    requires d > 0
    ensures n >= 0 ==> 0 <= n - Quotient(n, d) * d < d
    ensures n < 0 ==> 0 <= Quotient(n, d) * d - n < d
  {
    assert n == n / d * d + n % d && -n == -n / d * d + -n % d;
  }

  function Distance(a: int, b: int): int {
    if a > b then a - b else b - a
  }

  function Clamped(up: int, down: int, left: int, right: int, x: int): int {
    Max(Min(Min(up, down), Min(left, right)), Min(Max(Max(up, down), Max(left, right)), x))
  }

  /** The code's expressions (bounded) and polymage_camera_pipe.py's before they are stored in shorts (not bounded).
      `matrix` is the colour matrix and `lut` the tone curve. Output channels run the other way from matrix rows. */
  function Short(bounded: bool, n: int): int { if bounded then Wrap(n) else n }

  function GreenOf(bounded: bool, h1: int, h0: int, v1: int, v0: int): int {
    Short(bounded, if Short(bounded, Distance(h1, h0)) < Short(bounded, Distance(v1, v0)) then Quotient(h1 + h0, 2) else Quotient(v1 + v0, 2))
  }

  function ColourOf(bounded: bool, g: int, q0: int, q1: int, c0: int, c1: int): int {
    Short(bounded, g - Quotient(q0 + q1, 2) + Quotient(c0 + c1, 2))
  }

  function SourceKernels(bounded: bool, matrix: (int, int) -> int, lut: int -> int): Kernels<int> {
    Kernels(
      (up, down, left, right, x) => Clamped(up, down, left, right, x),
      (h1, h0, v1, v0) => GreenOf(bounded, h1, h0, v1, v0),
      (g, q0, q1, c0, c1) => ColourOf(bounded, g, q0, q1, c0, c1),
      (g, q0, q1, c0, c1, q2, q3, c2, c3) =>
        if Short(bounded, Distance(c0, c1)) < Short(bounded, Distance(c2, c3)) then ColourOf(bounded, g, q0, q1, c0, c1)
        else ColourOf(bounded, g, q2, q3, c2, c3),
      (k, r, g, b) => Wrap(Quotient(matrix(2 - k, 3) + matrix(2 - k, 0) * r + matrix(2 - k, 1) * g + matrix(2 - k, 2) * b, 256)),
      lut)
  }

  ghost predicate Within(f: Stage<int>, lo: int, hi: int) {
    forall i, j :: lo <= f(0, i, j) <= hi
  }

  ghost predicate Same(f: Stage<int>, g: Stage<int>) {
    forall i, j :: f(0, i, j) == g(0, i, j)
  }

  lemma QuotientRange(n: int, lo: int, hi: int)
    requires 2 * lo <= n <= 2 * hi
    ensures lo <= Quotient(n, 2) <= hi
  {
  }

  lemma GreenRange(h1: int, h0: int, v1: int, v0: int, M: int)
    requires M <= 16383 && 0 <= h1 <= M && 0 <= h0 <= M && 0 <= v1 <= M && 0 <= v0 <= M
    ensures GreenOf(true, h1, h0, v1, v0) == GreenOf(false, h1, h0, v1, v0)
    ensures 0 <= GreenOf(false, h1, h0, v1, v0) <= M
  {
    QuotientRange(h1 + h0, 0, M);
    QuotientRange(v1 + v0, 0, M);
  }

  lemma ColourRange(g: int, q0: int, q1: int, c0: int, c1: int, M: int)
    requires M <= 16383 && 0 <= g <= M && 0 <= q0 <= M && 0 <= q1 <= M && 0 <= c0 <= M && 0 <= c1 <= M
    ensures ColourOf(true, g, q0, q1, c0, c1) == ColourOf(false, g, q0, q1, c0, c1)
    ensures -M <= ColourOf(false, g, q0, q1, c0, c1) <= 2 * M
  {
    QuotientRange(q0 + q1, 0, M);
    QuotientRange(c0 + c1, 0, M);
  }

  // Two runs over one raw image in [0, M]: s as the code computes, t in unbounded integers.

  lemma SameGuess(e: Kernels<int>, e': Kernels<int>, matrix: (int, int) -> int, lut: int -> int, M: int, dj: int, di: int,
                  h: Stage<int>, v: Stage<int>, g: Stage<int>, h': Stage<int>, v': Stage<int>, g': Stage<int>)
    requires e == SourceKernels(true, matrix, lut) && e' == SourceKernels(false, matrix, lut) && M <= 16383
    requires Same(h, h') && Same(v, v') && Within(h, 0, M) && Within(v, 0, M)
    requires GuessLaw(e, h, dj, v, di, g) && GuessLaw(e', h', dj, v', di, g')
    ensures Same(g, g') && Within(g, 0, M)
  {
    forall i, j ensures g(0, i, j) == g'(0, i, j) && 0 <= g(0, i, j) <= M {
      GreenRange(h(0, i, j + dj), h(0, i, j), v(0, i + di, j), v(0, i, j), M);
    }
  }

  lemma SameShift(e: Kernels<int>, e': Kernels<int>, matrix: (int, int) -> int, lut: int -> int, M: int, di: int, dj: int,
                  green: Stage<int>, q: Stage<int>, c: Stage<int>, g: Stage<int>,
                  green': Stage<int>, q': Stage<int>, c': Stage<int>, g': Stage<int>)
    requires e == SourceKernels(true, matrix, lut) && e' == SourceKernels(false, matrix, lut) && M <= 16383
    requires Same(green, green') && Same(q, q') && Same(c, c') && Within(green, 0, M) && Within(q, 0, M) && Within(c, 0, M)
    requires ShiftLaw(e, green, q, c, di, dj, g) && ShiftLaw(e', green', q', c', di, dj, g')
    ensures Same(g, g') && Within(g, -M, 2 * M)
  {
    forall i, j ensures g(0, i, j) == g'(0, i, j) && -M <= g(0, i, j) <= 2 * M {
      ColourRange(green(0, i, j), q(0, i, j), q(0, i + di, j + dj), c(0, i, j), c(0, i + di, j + dj), M);
    }
  }

  lemma SameDiagonal(e: Kernels<int>, e': Kernels<int>, matrix: (int, int) -> int, lut: int -> int, M: int, d: int,
                     green: Stage<int>, q: Stage<int>, c: Stage<int>, g: Stage<int>,
                     green': Stage<int>, q': Stage<int>, c': Stage<int>, g': Stage<int>)
    requires e == SourceKernels(true, matrix, lut) && e' == SourceKernels(false, matrix, lut) && M <= 16383
    requires Same(green, green') && Same(q, q') && Same(c, c') && Within(green, 0, M) && Within(q, 0, M) && Within(c, 0, M)
    requires DiagonalLaw(e, green, q, c, d, g) && DiagonalLaw(e', green', q', c', d, g')
    ensures Same(g, g') && Within(g, -M, 2 * M)
  {
    forall i, j ensures g(0, i, j) == g'(0, i, j) && -M <= g(0, i, j) <= 2 * M {
      ColourRange(green(0, i, j), q(0, i, j), q(0, i + d, j - d), c(0, i, j), c(0, i + d, j - d), M);
      ColourRange(green(0, i, j), q(0, i, j - d), q(0, i + d, j), c(0, i, j - d), c(0, i + d, j), M);
    }
  }

  lemma SameSensors(e: Kernels<int>, e': Kernels<int>, matrix: (int, int) -> int, lut: int -> int, M: int,
                    s: Sensors<int>, t: Sensors<int>)
    requires e == SourceKernels(true, matrix, lut) && e' == SourceKernels(false, matrix, lut)
    requires SensorLaws(e, s) && SensorLaws(e', t) && Same(s.raw, t.raw) && Within(s.raw, 0, M)
    ensures Same(s.r_r, t.r_r) && Same(s.g_gr, t.g_gr) && Same(s.b_b, t.b_b) && Same(s.g_gb, t.g_gb)
    ensures Within(s.r_r, 0, M) && Within(s.g_gr, 0, M) && Within(s.b_b, 0, M) && Within(s.g_gb, 0, M)
  {
    forall i, j ensures s.denoised(0, i, j) == t.denoised(0, i, j) && 0 <= s.denoised(0, i, j) <= M {
      assert s.denoised(0, i, j) == Denoised(e, s.raw, i, j) && t.denoised(0, i, j) == Denoised(e', t.raw, i, j);
    }
    forall u, v
      ensures s.r_r(0, u, v) == t.r_r(0, u, v) && s.g_gr(0, u, v) == t.g_gr(0, u, v)
      ensures s.b_b(0, u, v) == t.b_b(0, u, v) && s.g_gb(0, u, v) == t.g_gb(0, u, v)
      ensures 0 <= s.r_r(0, u, v) <= M && 0 <= s.g_gr(0, u, v) <= M && 0 <= s.b_b(0, u, v) <= M && 0 <= s.g_gb(0, u, v) <= M
    {
      SensorSamples(e, s, u, v);
      SensorSamples(e', t, u, v);
    }
  }

  lemma SameWoven(c: Channel<int>, c': Channel<int>, lo: int, hi: int)
    requires ChannelLaws(c) && ChannelLaws(c')
    requires Same(c.even1, c'.even1) && Same(c.odd1, c'.odd1) && Same(c.even2, c'.even2) && Same(c.odd2, c'.odd2)
    requires Within(c.even1, lo, hi) && Within(c.odd1, lo, hi) && Within(c.even2, lo, hi) && Within(c.odd2, lo, hi)
    ensures Same(c.all, c'.all) && Within(c.all, lo, hi)
  {
    forall i, j ensures c.all(0, i, j) == c'.all(0, i, j) && lo <= c.all(0, i, j) <= hi {
      var u, v := i / 2, j / 2;
      Woven(c, u, v);
      Woven(c', u, v);
      assert i == 2 * u || i == 2 * u + 1;
      assert j == 2 * v || j == 2 * v + 1;
    }
  }

  /** For raw samples in [0, M], M <= 16383, no store to a short wraps before colour correction: green stays in
      [0, M], red and blue in [-M, 2M], and all three are what unbounded integers give. */
  lemma NoWrap(matrix: (int, int) -> int, lut: int -> int, M: int, s: Stages<int>, t: Stages<int>)
    requires M <= 16383 && Lawful(SourceKernels(true, matrix, lut), s) && Lawful(SourceKernels(false, matrix, lut), t)
    requires Same(s.sensors.raw, t.sensors.raw) && Within(s.sensors.raw, 0, M)
    ensures Same(s.green.all, t.green.all) && Within(s.green.all, 0, M)
    ensures Same(s.red.all, t.red.all) && Within(s.red.all, -M, 2 * M)
    ensures Same(s.blue.all, t.blue.all) && Within(s.blue.all, -M, 2 * M)
  {
    var e, e' := SourceKernels(true, matrix, lut), SourceKernels(false, matrix, lut);
    var p, q := s.sensors, t.sensors;
    SameSensors(e, e', matrix, lut, M, p, q);
    SameGuess(e, e', matrix, lut, M, 1, -1, p.g_gr, p.g_gb, s.green.odd1, q.g_gr, q.g_gb, t.green.odd1);
    SameGuess(e, e', matrix, lut, M, -1, 1, p.g_gb, p.g_gr, s.green.even2, q.g_gb, q.g_gr, t.green.even2);
    SameWoven(s.green, t.green, 0, M);
    var g_r, g_b, g_r', g_b' := s.green.odd1, s.green.even2, t.green.odd1, t.green.even2;
    SameShift(e, e', matrix, lut, M, 0, -1, p.g_gr, g_r, p.r_r, s.red.even1, q.g_gr, g_r', q.r_r, t.red.even1);
    SameDiagonal(e, e', matrix, lut, M, 1, g_b, g_r, p.r_r, s.red.even2, g_b', g_r', q.r_r, t.red.even2);
    SameShift(e, e', matrix, lut, M, 1, 0, p.g_gb, g_r, p.r_r, s.red.odd2, q.g_gb, g_r', q.r_r, t.red.odd2);
    SameWoven(s.red, t.red, -M, 2 * M);
    SameShift(e, e', matrix, lut, M, -1, 0, p.g_gr, g_b, p.b_b, s.blue.even1, q.g_gr, g_b', q.b_b, t.blue.even1);
    SameDiagonal(e, e', matrix, lut, M, -1, g_r, g_b, p.b_b, s.blue.odd1, g_r', g_b', q.b_b, t.blue.odd1);
    SameShift(e, e', matrix, lut, M, 0, 1, p.g_gb, g_b, p.b_b, s.blue.odd2, q.g_gb, g_b', q.b_b, t.blue.odd2);
    SameWoven(s.blue, t.blue, -M, 2 * M);
  }

  // 16383 is the last such bound.

  /** a raw image: M in even rows, 0 in odd ones */
  function Striped(M: int): Stage<int> {
    (k, i, j) => if i % 2 == 0 then M else 0
  }

  /** no noise is found in it, ... */
  lemma StripedDenoised(e: Kernels<int>, bounded: bool, matrix: (int, int) -> int, lut: int -> int, M: int, s: Sensors<int>, i: int, j: int)
    requires e == SourceKernels(bounded, matrix, lut) && SensorLaws(e, s) && Same(s.raw, Striped(M))
    ensures s.denoised(0, i, j) == if i % 2 == 0 then M else 0
  {
    var x := if i % 2 == 0 then M else 0;
    assert s.raw(0, i - 2, j) == x && s.raw(0, i + 2, j) == x && s.raw(0, i, j - 2) == x && s.raw(0, i, j + 2) == x && s.raw(0, i, j) == x;
    assert s.denoised(0, i, j) == Denoised(e, s.raw, i, j) == Clamped(x, x, x, x, x);
  }

  lemma StripedSensors(e: Kernels<int>, bounded: bool, matrix: (int, int) -> int, lut: int -> int, M: int, s: Sensors<int>)
    requires e == SourceKernels(bounded, matrix, lut) && SensorLaws(e, s) && Same(s.raw, Striped(M))
    ensures forall i, j :: s.g_gr(0, i, j) == M
    ensures forall i, j :: s.r_r(0, i, j) == M
    ensures forall i, j :: s.g_gb(0, i, j) == 0
  {
    forall i, j ensures s.g_gr(0, i, j) == M && s.r_r(0, i, j) == M && s.g_gb(0, i, j) == 0 {
      SensorSamples(e, s, i, j);
      Half(i);
      StripedDenoised(e, bounded, matrix, lut, M, s, 2 * i, 2 * j);
      StripedDenoised(e, bounded, matrix, lut, M, s, 2 * i, 2 * j + 1);
      StripedDenoised(e, bounded, matrix, lut, M, s, 2 * i + 1, 2 * j + 1);
    }
  }

  lemma ShortIs(bounded: bool, M: int)
    ensures GreenOf(bounded, M, M, 0, 0) == 0 && ColourOf(bounded, M, 0, 0, M, M) == Short(bounded, 2 * M)
  {
    assert Quotient(M + M, 2) == M;
  }

  /** ... green at red sites is taken from the odd rows, and red at the green sites of even rows is twice M. */
  lemma StripedRed(bounded: bool, matrix: (int, int) -> int, lut: int -> int, M: int, s: Stages<int>, u: int, v: int)
    requires Lawful(SourceKernels(bounded, matrix, lut), s) && Same(s.sensors.raw, Striped(M))
    ensures s.red.all(0, 2 * u, 2 * v) == Short(bounded, 2 * M)
  {
    var e, p := SourceKernels(bounded, matrix, lut), s.sensors;
    StripedSensors(e, bounded, matrix, lut, M, p);
    ShortIs(bounded, M);
    assert s.green.odd1(0, u, v - 1) == GreenOf(bounded, M, M, 0, 0);
    assert s.green.odd1(0, u, v) == GreenOf(bounded, M, M, 0, 0);
    assert s.red.even1(0, u, v) == ColourOf(bounded, M, 0, 0, M, M);
    Woven(s.red, u, v);
  }

  lemma WrapTwice(M: int)
    requires 16384 <= M <= 32767
    ensures Wrap(2 * M) == 2 * M - 65536
  {
  }

  /** From M = 16384 on, the striped image has a colour at every green site of even rows that wraps. */
  lemma ColourWraps(matrix: (int, int) -> int, lut: int -> int, M: int, s: Stages<int>, t: Stages<int>, u: int, v: int)
    requires 16384 <= M <= 32767 && Lawful(SourceKernels(true, matrix, lut), s) && Lawful(SourceKernels(false, matrix, lut), t)
    requires Same(s.sensors.raw, Striped(M)) && Same(t.sensors.raw, Striped(M))
    ensures Within(s.sensors.raw, 0, M)
    ensures t.red.all(0, 2 * u, 2 * v) == 2 * M && s.red.all(0, 2 * u, 2 * v) == 2 * M - 65536
  {
    StripedRed(true, matrix, lut, M, s, u, v);
    StripedRed(false, matrix, lut, M, t, u, v);
    WrapTwice(M);
    StripedWithin(M, s.sensors.raw);
  }

  lemma StripedWithin(M: int, raw: Stage<int>)
    requires M >= 0 && Same(raw, Striped(M))
    ensures Within(raw, 0, M)
  {
    forall i, j ensures 0 <= raw(0, i, j) <= M {
      assert raw(0, i, j) == Striped(M)(0, i, j);
    }
  }

  /** Over all raw images in [0, M], the 16-bit colours are those of unbounded integers. */
  ghost predicate NeverWraps(matrix: (int, int) -> int, lut: int -> int, M: int) {
    forall s, t :: Lawful(SourceKernels(true, matrix, lut), s) && Lawful(SourceKernels(false, matrix, lut), t)
                   && Same(s.sensors.raw, t.sensors.raw) && Within(s.sensors.raw, 0, M) ==>
      Same(s.green.all, t.green.all) && Same(s.red.all, t.red.all) && Same(s.blue.all, t.blue.all)
  }

  lemma NeverWrapsExactly(matrix: (int, int) -> int, lut: int -> int, M: int)
    ensures NeverWraps(matrix, lut, M) <==> M <= 16383
  {
    if M <= 16383 {
      forall s, t | Lawful(SourceKernels(true, matrix, lut), s) && Lawful(SourceKernels(false, matrix, lut), t)
                    && Same(s.sensors.raw, t.sensors.raw) && Within(s.sensors.raw, 0, M)
        ensures Same(s.green.all, t.green.all) && Same(s.red.all, t.red.all) && Same(s.blue.all, t.blue.all)
      {
        NoWrap(matrix, lut, M, s, t);
      }
    } else {
      var s := MakeStages(SourceKernels(true, matrix, lut), Striped(16384));
      var t := MakeStages(SourceKernels(false, matrix, lut), Striped(16384));
      ColourWraps(matrix, lut, 16384, s, t, 10, 10);
    }
  }

  lemma SameProcess(matrix: (int, int) -> int, lut: int -> int, s: Stages<int>, t: Stages<int>, k: int, i: int, j: int)
    requires Lawful(SourceKernels(true, matrix, lut), s) && Lawful(SourceKernels(false, matrix, lut), t)
    requires Same(s.green.all, t.green.all) && Same(s.red.all, t.red.all) && Same(s.blue.all, t.blue.all)
    ensures s.process(k, i, j) == t.process(k, i, j)
  {
    assert s.corrected(k, i, j) == t.corrected(k, i, j);
  }

  /** Over such a raw image the fused 16-bit code computes the unbounded specification t. */
  method FusedMeetsSpecification(raw: Window<int>, matrix: (int, int) -> int, lut: int -> int, stray: (int, int, int) -> int,
                                 ghost M: int, ghost t: Stages<int>)
    returns (fused: Window<int>)
    requires M <= 16383 && Lawful(SourceKernels(false, matrix, lut), t) && Within(t.sensors.raw, 0, M)
    requires Raw(raw, t.sensors.raw)
    ensures CanStore(fused, 3, Image)
    ensures forall k, i, j :: 0 <= k <= 2 && 12 <= i <= 1931 && 16 <= j <= 2543 ==> fused.At(k, i, j) == t.process(k, i, j)
  {
    var e := SourceKernels(true, matrix, lut);
    ghost var s := MakeStages(e, t.sensors.raw);
    NoWrap(matrix, lut, M, s, t);
    fused := Fused(e, raw, stray, s);
    forall k, i, j | 0 <= k <= 2 && 12 <= i <= 1931 && 16 <= j <= 2543 ensures fused.At(k, i, j) == t.process(k, i, j) {
      SameProcess(matrix, lut, s, t, k, i, j);
    }
  }
}
