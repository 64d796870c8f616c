/** What the camera pipeline computes, said in terms of the raw image and of image coordinates: denoising, demosaicing,
    and the picture of a uniformly coloured scene with a broken sensor cell. */
module CameraValues {
  import opened Buffers
  import opened CameraSpec
  import opened CameraEqual
  import opened CameraInts

  // Denoising.

  predicate AtMostOne(x: int, a: int, b: int, c: int, d: int) { x <= a || x <= b || x <= c || x <= d }

  predicate AtLeastOne(x: int, a: int, b: int, c: int, d: int) { x >= a || x >= b || x >= c || x >= d }

  predicate AtLeastAll(x: int, a: int, b: int, c: int, d: int) { x >= a && x >= b && x >= c && x >= d }

  predicate AtMostAll(x: int, a: int, b: int, c: int, d: int) { x <= a && x <= b && x <= c && x <= d }

  /** A denoised sample is among the four nearest of its colour, unchanged if it was, and else at the nearer end. */
  lemma DenoisedAmong(bounded: bool, matrix: (int, int) -> int, lut: int -> int, s: Stages<int>, i: int, j: int)
    requires Lawful(SourceKernels(bounded, matrix, lut), s)
    ensures var f, x := s.sensors.raw, s.sensors.denoised(0, i, j);
            var a, b, c, d := f(0, i - 2, j), f(0, i + 2, j), f(0, i, j - 2), f(0, i, j + 2);
            && AtMostOne(x, a, b, c, d) && AtLeastOne(x, a, b, c, d)
            && (AtMostOne(f(0, i, j), a, b, c, d) && AtLeastOne(f(0, i, j), a, b, c, d) ==> x == f(0, i, j))
            && (AtLeastAll(f(0, i, j), a, b, c, d) ==> AtLeastAll(x, a, b, c, d))
            && (AtMostAll(f(0, i, j), a, b, c, d) ==> AtMostAll(x, a, b, c, d))
  {
    assert s.sensors.denoised(0, i, j) == Denoised(SourceKernels(bounded, matrix, lut), s.sensors.raw, i, j);
  }

  // Demosaicing, in image coordinates. D is the denoised image, G the green one.

  /** the mean, rounded toward zero */
  function Mean(a: int, b: int): int { Quotient(a + b, 2) }

  /** the mean along the axis on which the neighbours differ less, vertically if they do equally */
  function GreenBetween(D: Stage<int>, i: int, j: int): int {
    if Distance(D(0, i, j - 1), D(0, i, j + 1)) < Distance(D(0, i - 1, j), D(0, i + 1, j)) then Mean(D(0, i, j - 1), D(0, i, j + 1))
    else Mean(D(0, i - 1, j), D(0, i + 1, j))
  }

  function GreenAt(D: Stage<int>, i: int, j: int): int {
    if (i + j) % 2 == 0 then D(0, i, j) else GreenBetween(D, i, j)
  }

  /** green, and by how much the colour's samples at offsets (di, dj) and (-di, -dj) exceed green there */
  function Along(D: Stage<int>, G: Stage<int>, i: int, j: int, di: int, dj: int): int {
    G(0, i, j) - Mean(G(0, i - di, j - dj), G(0, i + di, j + dj)) + Mean(D(0, i - di, j - dj), D(0, i + di, j + dj))
  }

  /** along the diagonal on which the colour's samples differ less */
  function Crossing(D: Stage<int>, G: Stage<int>, i: int, j: int): int {
    if Distance(D(0, i - 1, j + 1), D(0, i + 1, j - 1)) < Distance(D(0, i - 1, j - 1), D(0, i + 1, j + 1)) then Along(D, G, i, j, 1, -1)
    else Along(D, G, i, j, 1, 1)
  }

  /** the colour whose samples are in rows of parity p, at sites that are not green */
  function ColourAt(D: Stage<int>, G: Stage<int>, p: int, i: int, j: int): int {
    if (i + j) % 2 == 0 then (if i % 2 == p then Along(D, G, i, j, 0, 1) else Along(D, G, i, j, 1, 0))
    else if i % 2 == p then D(0, i, j)
    else Crossing(D, G, i, j)
  }

  /** Where the samples of the four sensors and the values of green lie in the image. */
  predicate Sites(p: Sensors<int>, g: Channel<int>, u: int, v: int) {
    && p.g_gr(0, u, v) == g.all(0, 2 * u, 2 * v) == p.denoised(0, 2 * u, 2 * v)
    && p.g_gb(0, u, v) == g.all(0, 2 * u + 1, 2 * v + 1) == p.denoised(0, 2 * u + 1, 2 * v + 1)
    && p.r_r(0, u, v) == p.denoised(0, 2 * u, 2 * v + 1) && g.odd1(0, u, v) == g.all(0, 2 * u, 2 * v + 1)
    && p.b_b(0, u, v) == p.denoised(0, 2 * u + 1, 2 * v) && g.even2(0, u, v) == g.all(0, 2 * u + 1, 2 * v)
  }

  lemma SitesHold(e: Kernels<int>, s: Stages<int>, u: int, v: int)
    requires Lawful(e, s)
    ensures Sites(s.sensors, s.green, u, v)
  {
    SensorSamples(e, s.sensors, u, v);
    Woven(s.green, u, v);
  }

  // One nest at a time.

  lemma GuessIs(matrix: (int, int) -> int, lut: int -> int, h: Stage<int>, dj: int, w: Stage<int>, di: int, g: Stage<int>, u: int, v: int)
    requires GuessLaw(SourceKernels(false, matrix, lut), h, dj, w, di, g)
    ensures g(0, u, v) == if Distance(h(0, u, v + dj), h(0, u, v)) < Distance(w(0, u + di, v), w(0, u, v)) then Mean(h(0, u, v + dj), h(0, u, v))
                          else Mean(w(0, u + di, v), w(0, u, v))
  {
  }

  lemma ShiftIs(matrix: (int, int) -> int, lut: int -> int, green: Stage<int>, q: Stage<int>, c: Stage<int>, di: int, dj: int, g: Stage<int>, u: int, v: int)
    requires ShiftLaw(SourceKernels(false, matrix, lut), green, q, c, di, dj, g)
    ensures g(0, u, v) == green(0, u, v) - Mean(q(0, u, v), q(0, u + di, v + dj)) + Mean(c(0, u, v), c(0, u + di, v + dj))
  {
  }

  lemma DiagonalIs(matrix: (int, int) -> int, lut: int -> int, green: Stage<int>, q: Stage<int>, c: Stage<int>, d: int, g: Stage<int>, u: int, v: int)
    requires DiagonalLaw(SourceKernels(false, matrix, lut), green, q, c, d, g)
    ensures g(0, u, v) == if Distance(c(0, u, v), c(0, u + d, v - d)) < Distance(c(0, u, v - d), c(0, u + d, v))
                          then green(0, u, v) - Mean(q(0, u, v), q(0, u + d, v - d)) + Mean(c(0, u, v), c(0, u + d, v - d))
                          else green(0, u, v) - Mean(q(0, u, v - d), q(0, u + d, v)) + Mean(c(0, u, v - d), c(0, u + d, v))
  {
    var e := SourceKernels(false, matrix, lut);
    var x, q0, q1, c0, c1 := green(0, u, v), q(0, u, v), q(0, u + d, v - d), c(0, u, v), c(0, u + d, v - d);
    var q2, q3, c2, c3 := q(0, u, v - d), q(0, u + d, v), c(0, u, v - d), c(0, u + d, v);
    assert g(0, u, v) == e.diagonal(x, q0, q1, c0, c1, q2, q3, c2, c3);
    if Distance(c0, c1) < Distance(c2, c3) {
      assert g(0, u, v) == ColourOf(false, x, q0, q1, c0, c1);
    } else {
      assert g(0, u, v) == ColourOf(false, x, q2, q3, c2, c3);
    }
  }

  // In image coordinates.

  lemma GreenAtRed(matrix: (int, int) -> int, lut: int -> int, p: Sensors<int>, g: Channel<int>, u: int, v: int)
    requires GuessLaw(SourceKernels(false, matrix, lut), p.g_gr, 1, p.g_gb, -1, g.odd1)
    requires Sites(p, g, u, v) && Sites(p, g, u, v + 1) && Sites(p, g, u - 1, v)
    ensures g.all(0, 2 * u, 2 * v + 1) == GreenBetween(p.denoised, 2 * u, 2 * v + 1)
  {
    GuessIs(matrix, lut, p.g_gr, 1, p.g_gb, -1, g.odd1, u, v);
  }

  lemma GreenAtBlue(matrix: (int, int) -> int, lut: int -> int, p: Sensors<int>, g: Channel<int>, u: int, v: int)
    requires GuessLaw(SourceKernels(false, matrix, lut), p.g_gb, -1, p.g_gr, 1, g.even2)
    requires Sites(p, g, u, v) && Sites(p, g, u, v - 1) && Sites(p, g, u + 1, v)
    ensures g.all(0, 2 * u + 1, 2 * v) == GreenBetween(p.denoised, 2 * u + 1, 2 * v)
  {
    GuessIs(matrix, lut, p.g_gb, -1, p.g_gr, 1, g.even2, u, v);
  }

  lemma RedBeside(matrix: (int, int) -> int, lut: int -> int, p: Sensors<int>, g: Channel<int>, x: Stage<int>, u: int, v: int)
    requires ShiftLaw(SourceKernels(false, matrix, lut), p.g_gr, g.odd1, p.r_r, 0, -1, x) && Sites(p, g, u, v) && Sites(p, g, u, v - 1)
    ensures x(0, u, v) == Along(p.denoised, g.all, 2 * u, 2 * v, 0, 1)
  {
    ShiftIs(matrix, lut, p.g_gr, g.odd1, p.r_r, 0, -1, x, u, v);
  }

  lemma RedAbove(matrix: (int, int) -> int, lut: int -> int, p: Sensors<int>, g: Channel<int>, x: Stage<int>, u: int, v: int)
    requires ShiftLaw(SourceKernels(false, matrix, lut), p.g_gb, g.odd1, p.r_r, 1, 0, x) && Sites(p, g, u, v) && Sites(p, g, u + 1, v)
    ensures x(0, u, v) == Along(p.denoised, g.all, 2 * u + 1, 2 * v + 1, 1, 0)
  {
    ShiftIs(matrix, lut, p.g_gb, g.odd1, p.r_r, 1, 0, x, u, v);
  }

  lemma BlueAbove(matrix: (int, int) -> int, lut: int -> int, p: Sensors<int>, g: Channel<int>, x: Stage<int>, u: int, v: int)
    requires ShiftLaw(SourceKernels(false, matrix, lut), p.g_gr, g.even2, p.b_b, -1, 0, x) && Sites(p, g, u, v) && Sites(p, g, u - 1, v)
    ensures x(0, u, v) == Along(p.denoised, g.all, 2 * u, 2 * v, 1, 0)
  {
    ShiftIs(matrix, lut, p.g_gr, g.even2, p.b_b, -1, 0, x, u, v);
  }

  lemma BlueBeside(matrix: (int, int) -> int, lut: int -> int, p: Sensors<int>, g: Channel<int>, x: Stage<int>, u: int, v: int)
    requires ShiftLaw(SourceKernels(false, matrix, lut), p.g_gb, g.even2, p.b_b, 0, 1, x) && Sites(p, g, u, v) && Sites(p, g, u, v + 1)
    ensures x(0, u, v) == Along(p.denoised, g.all, 2 * u + 1, 2 * v + 1, 0, 1)
  {
    ShiftIs(matrix, lut, p.g_gb, g.even2, p.b_b, 0, 1, x, u, v);
  }

  lemma RedAtBlue(matrix: (int, int) -> int, lut: int -> int, p: Sensors<int>, g: Channel<int>, x: Stage<int>, u: int, v: int)
    requires DiagonalLaw(SourceKernels(false, matrix, lut), g.even2, g.odd1, p.r_r, 1, x)
    requires Sites(p, g, u, v) && Sites(p, g, u + 1, v - 1) && Sites(p, g, u, v - 1) && Sites(p, g, u + 1, v)
    ensures x(0, u, v) == Crossing(p.denoised, g.all, 2 * u + 1, 2 * v)
  {
    DiagonalIs(matrix, lut, g.even2, g.odd1, p.r_r, 1, x, u, v);
  }

  lemma BlueAtRed(matrix: (int, int) -> int, lut: int -> int, p: Sensors<int>, g: Channel<int>, x: Stage<int>, u: int, v: int)
    requires DiagonalLaw(SourceKernels(false, matrix, lut), g.odd1, g.even2, p.b_b, -1, x)
    requires Sites(p, g, u, v) && Sites(p, g, u - 1, v + 1) && Sites(p, g, u, v + 1) && Sites(p, g, u - 1, v)
    ensures x(0, u, v) == Crossing(p.denoised, g.all, 2 * u, 2 * v + 1)
  {
    DiagonalIs(matrix, lut, g.odd1, g.even2, p.b_b, -1, x, u, v);
  }

  /** the site's place in its 2 x 2 cell of the array */
  lemma Parities(i: int, j: int)
    ensures i == 2 * (i / 2) + i % 2 && j == 2 * (j / 2) + j % 2 && ((i + j) % 2 == 0 <==> i % 2 == j % 2)
  {
  }

  lemma Halves(n: int) returns (u: int)
    ensures n == 2 * u || n == 2 * u + 1
  {
    u := n / 2;
  }

  lemma GreenFromSites(D: Stage<int>, G: Stage<int>, i: int, j: int, u: int, v: int)
    requires (i == 2 * u || i == 2 * u + 1) && (j == 2 * v || j == 2 * v + 1)
    requires G(0, 2 * u, 2 * v) == D(0, 2 * u, 2 * v) && G(0, 2 * u + 1, 2 * v + 1) == D(0, 2 * u + 1, 2 * v + 1)
    requires G(0, 2 * u, 2 * v + 1) == GreenBetween(D, 2 * u, 2 * v + 1) && G(0, 2 * u + 1, 2 * v) == GreenBetween(D, 2 * u + 1, 2 * v)
    ensures G(0, i, j) == GreenAt(D, i, j)
  {
    Parities(i, j);
  }

  lemma GreenSites(matrix: (int, int) -> int, lut: int -> int, s: Stages<int>, u: int, v: int)
    requires Lawful(SourceKernels(false, matrix, lut), s)
    ensures Sites(s.sensors, s.green, u, v)
    ensures s.green.all(0, 2 * u, 2 * v + 1) == GreenBetween(s.sensors.denoised, 2 * u, 2 * v + 1)
    ensures s.green.all(0, 2 * u + 1, 2 * v) == GreenBetween(s.sensors.denoised, 2 * u + 1, 2 * v)
  {
    var e, p, g := SourceKernels(false, matrix, lut), s.sensors, s.green;
    SitesHold(e, s, u, v);
    SitesHold(e, s, u, v + 1);
    SitesHold(e, s, u - 1, v);
    SitesHold(e, s, u, v - 1);
    SitesHold(e, s, u + 1, v);
    GreenAtRed(matrix, lut, p, g, u, v);
    GreenAtBlue(matrix, lut, p, g, u, v);
  }

  /** Deinterleaved, interpolated and woven again, green is what its neighbours in the image say. */
  lemma GreenEverywhere(matrix: (int, int) -> int, lut: int -> int, s: Stages<int>, i: int, j: int)
    requires Lawful(SourceKernels(false, matrix, lut), s)
    ensures s.green.all(0, i, j) == GreenAt(s.sensors.denoised, i, j)
  {
    var u := Halves(i);
    var v := Halves(j);
    GreenSites(matrix, lut, s, u, v);
    GreenFromSites(s.sensors.denoised, s.green.all, i, j, u, v);
  }

  lemma RedFromSites(D: Stage<int>, G: Stage<int>, X: Stage<int>, i: int, j: int, u: int, v: int)
    requires (i == 2 * u || i == 2 * u + 1) && (j == 2 * v || j == 2 * v + 1)
    requires X(0, 2 * u, 2 * v) == Along(D, G, 2 * u, 2 * v, 0, 1) && X(0, 2 * u + 1, 2 * v + 1) == Along(D, G, 2 * u + 1, 2 * v + 1, 1, 0)
    requires X(0, 2 * u, 2 * v + 1) == D(0, 2 * u, 2 * v + 1) && X(0, 2 * u + 1, 2 * v) == Crossing(D, G, 2 * u + 1, 2 * v)
    ensures X(0, i, j) == ColourAt(D, G, 0, i, j)
  {
    Parities(i, j);
  }

  lemma BlueFromSites(D: Stage<int>, G: Stage<int>, X: Stage<int>, i: int, j: int, u: int, v: int)
    requires (i == 2 * u || i == 2 * u + 1) && (j == 2 * v || j == 2 * v + 1)
    requires X(0, 2 * u, 2 * v) == Along(D, G, 2 * u, 2 * v, 1, 0) && X(0, 2 * u + 1, 2 * v + 1) == Along(D, G, 2 * u + 1, 2 * v + 1, 0, 1)
    requires X(0, 2 * u + 1, 2 * v) == D(0, 2 * u + 1, 2 * v) && X(0, 2 * u, 2 * v + 1) == Crossing(D, G, 2 * u, 2 * v + 1)
    ensures X(0, i, j) == ColourAt(D, G, 1, i, j)
  {
    Parities(i, j);
  }

  lemma RedSites(matrix: (int, int) -> int, lut: int -> int, s: Stages<int>, u: int, v: int)
    requires Lawful(SourceKernels(false, matrix, lut), s)
    ensures s.red.all(0, 2 * u, 2 * v) == Along(s.sensors.denoised, s.green.all, 2 * u, 2 * v, 0, 1)
    ensures s.red.all(0, 2 * u, 2 * v + 1) == s.sensors.denoised(0, 2 * u, 2 * v + 1)
    ensures s.red.all(0, 2 * u + 1, 2 * v) == Crossing(s.sensors.denoised, s.green.all, 2 * u + 1, 2 * v)
    ensures s.red.all(0, 2 * u + 1, 2 * v + 1) == Along(s.sensors.denoised, s.green.all, 2 * u + 1, 2 * v + 1, 1, 0)
  {
    var e, p, g := SourceKernels(false, matrix, lut), s.sensors, s.green;
    SitesHold(e, s, u, v);
    SitesHold(e, s, u, v - 1);
    SitesHold(e, s, u + 1, v);
    SitesHold(e, s, u + 1, v - 1);
    Woven(s.red, u, v);
    RedBeside(matrix, lut, p, g, s.red.even1, u, v);
    RedAbove(matrix, lut, p, g, s.red.odd2, u, v);
    RedAtBlue(matrix, lut, p, g, s.red.even2, u, v);
  }

  /** So are red ... */
  lemma RedEverywhere(matrix: (int, int) -> int, lut: int -> int, s: Stages<int>, i: int, j: int)
    requires Lawful(SourceKernels(false, matrix, lut), s)
    ensures s.red.all(0, i, j) == ColourAt(s.sensors.denoised, s.green.all, 0, i, j)
  {
    var u := Halves(i);
    var v := Halves(j);
    RedSites(matrix, lut, s, u, v);
    RedFromSites(s.sensors.denoised, s.green.all, s.red.all, i, j, u, v);
  }

  lemma BlueSites(matrix: (int, int) -> int, lut: int -> int, s: Stages<int>, u: int, v: int)
    requires Lawful(SourceKernels(false, matrix, lut), s)
    ensures s.blue.all(0, 2 * u, 2 * v) == Along(s.sensors.denoised, s.green.all, 2 * u, 2 * v, 1, 0)
    ensures s.blue.all(0, 2 * u, 2 * v + 1) == Crossing(s.sensors.denoised, s.green.all, 2 * u, 2 * v + 1)
    ensures s.blue.all(0, 2 * u + 1, 2 * v) == s.sensors.denoised(0, 2 * u + 1, 2 * v)
    ensures s.blue.all(0, 2 * u + 1, 2 * v + 1) == Along(s.sensors.denoised, s.green.all, 2 * u + 1, 2 * v + 1, 0, 1)
  {
    var e, p, g := SourceKernels(false, matrix, lut), s.sensors, s.green;
    SitesHold(e, s, u, v);
    SitesHold(e, s, u, v + 1);
    SitesHold(e, s, u - 1, v);
    SitesHold(e, s, u - 1, v + 1);
    Woven(s.blue, u, v);
    BlueAbove(matrix, lut, p, g, s.blue.even1, u, v);
    BlueBeside(matrix, lut, p, g, s.blue.odd2, u, v);
    BlueAtRed(matrix, lut, p, g, s.blue.odd1, u, v);
  }

  /** ... and blue. */
  lemma BlueEverywhere(matrix: (int, int) -> int, lut: int -> int, s: Stages<int>, i: int, j: int)
    requires Lawful(SourceKernels(false, matrix, lut), s)
    ensures s.blue.all(0, i, j) == ColourAt(s.sensors.denoised, s.green.all, 1, i, j)
  {
    var u := Halves(i);
    var v := Halves(j);
    BlueSites(matrix, lut, s, u, v);
    BlueFromSites(s.sensors.denoised, s.green.all, s.blue.all, i, j, u, v);
  }

  // A uniformly coloured scene.

  /** what the sensor cell at (i, j) sees of colour (r, g, b) */
  function Cell(r: int, g: int, b: int, i: int, j: int): int {
    if (i + j) % 2 == 0 then g else if i % 2 == 0 then r else b
  }

  predicate Is16Bit(n: int) { -32768 <= n <= 32767 }

  /** Every cell sees it but the one at (p, q), which may say anything. */
  ghost predicate UniformBut(f: Stage<int>, r: int, g: int, b: int, p: int, q: int) {
    forall i, j {:trigger f(0, i, j)} :: i != p || j != q ==> f(0, i, j) == Cell(r, g, b, i, j)
  }

  /** Denoising repairs the broken cell. */
  lemma Repaired(bounded: bool, matrix: (int, int) -> int, lut: int -> int, s: Stages<int>, r: int, g: int, b: int, p: int, q: int, i: int, j: int)
    requires Lawful(SourceKernels(bounded, matrix, lut), s) && UniformBut(s.sensors.raw, r, g, b, p, q)
    ensures s.sensors.denoised(0, i, j) == Cell(r, g, b, i, j)
  {
    var f, x := s.sensors.raw, Cell(r, g, b, i, j);
    assert Cell(r, g, b, i - 2, j) == x && Cell(r, g, b, i + 2, j) == x && Cell(r, g, b, i, j - 2) == x && Cell(r, g, b, i, j + 2) == x;
    DenoisedAmong(bounded, matrix, lut, s, i, j);
  }

  lemma MeanSame(n: int)
    ensures Quotient(n + n, 2) == n
  {
  }

  ghost predicate All(f: Stage<int>, x: int) {
    forall i, j {:trigger f(0, i, j)} :: f(0, i, j) == x
  }

  lemma CellAt(r: int, g: int, b: int, u: int, v: int)
    ensures Cell(r, g, b, 2 * u, 2 * v) == g == Cell(r, g, b, 2 * u + 1, 2 * v + 1)
    ensures Cell(r, g, b, 2 * u, 2 * v + 1) == r && Cell(r, g, b, 2 * u + 1, 2 * v) == b
  {
    Parities(2 * u, 2 * v);
    Parities(2 * u + 1, 2 * v + 1);
    Parities(2 * u, 2 * v + 1);
    Parities(2 * u + 1, 2 * v);
  }

  lemma UniformSensors(matrix: (int, int) -> int, lut: int -> int, s: Stages<int>, r: int, g: int, b: int, p: int, q: int)
    requires Lawful(SourceKernels(true, matrix, lut), s) && UniformBut(s.sensors.raw, r, g, b, p, q)
    ensures All(s.sensors.g_gr, g) && All(s.sensors.g_gb, g) && All(s.sensors.r_r, r) && All(s.sensors.b_b, b)
  {
    forall u, v
      ensures s.sensors.g_gr(0, u, v) == g && s.sensors.g_gb(0, u, v) == g && s.sensors.r_r(0, u, v) == r && s.sensors.b_b(0, u, v) == b
    {
      SensorSamples(SourceKernels(true, matrix, lut), s.sensors, u, v);
      CellAt(r, g, b, u, v);
      Repaired(true, matrix, lut, s, r, g, b, p, q, 2 * u, 2 * v);
      Repaired(true, matrix, lut, s, r, g, b, p, q, 2 * u, 2 * v + 1);
      Repaired(true, matrix, lut, s, r, g, b, p, q, 2 * u + 1, 2 * v);
      Repaired(true, matrix, lut, s, r, g, b, p, q, 2 * u + 1, 2 * v + 1);
    }
  }

  lemma UniformWoven(c: Channel<int>, x: int, i: int, j: int)
    requires ChannelLaws(c) && All(c.even1, x) && All(c.odd1, x) && All(c.even2, x) && All(c.odd2, x)
    ensures c.all(0, i, j) == x
  {
    Parities(i, j);
    Woven(c, i / 2, j / 2);
  }

  /** The full colour is found at every site. */
  lemma UniformColours(matrix: (int, int) -> int, lut: int -> int, s: Stages<int>, r: int, g: int, b: int, p: int, q: int, i: int, j: int)
    requires Lawful(SourceKernels(true, matrix, lut), s) && UniformBut(s.sensors.raw, r, g, b, p, q)
    requires Is16Bit(r) && Is16Bit(g) && Is16Bit(b)
    ensures s.red.all(0, i, j) == r && s.green.all(0, i, j) == g && s.blue.all(0, i, j) == b
  {
    var e := SourceKernels(true, matrix, lut);
    UniformSensors(matrix, lut, s, r, g, b, p, q);
    UniformGreens(e, matrix, lut, s, g);
    UniformShifts(e, matrix, lut, s, r, g, b);
    UniformWoven(s.red, r, i, j);
    UniformWoven(s.green, g, i, j);
    UniformWoven(s.blue, b, i, j);
  }

  lemma UniformGreens(e: Kernels<int>, matrix: (int, int) -> int, lut: int -> int, s: Stages<int>, g: int)
    requires e == SourceKernels(true, matrix, lut) && Lawful(e, s) && All(s.sensors.g_gr, g) && All(s.sensors.g_gb, g) && Is16Bit(g)
    ensures All(s.green.odd1, g) && All(s.green.even2, g)
  {
    MeanSame(g);
    assert GreenOf(true, g, g, g, g) == g;
  }

  lemma ColourSame(g: int, c: int)
    requires Is16Bit(c)
    ensures ColourOf(true, g, g, g, c, c) == c
  {
    MeanSame(g);
    MeanSame(c);
  }

  lemma UniformShifts(e: Kernels<int>, matrix: (int, int) -> int, lut: int -> int, s: Stages<int>, r: int, g: int, b: int)
    requires e == SourceKernels(true, matrix, lut) && Lawful(e, s) && Is16Bit(r) && Is16Bit(b)
    requires All(s.sensors.g_gr, g) && All(s.sensors.g_gb, g) && All(s.sensors.r_r, r) && All(s.sensors.b_b, b)
    requires All(s.green.odd1, g) && All(s.green.even2, g)
    ensures All(s.red.even1, r) && All(s.red.even2, r) && All(s.red.odd2, r)
    ensures All(s.blue.even1, b) && All(s.blue.odd1, b) && All(s.blue.odd2, b)
  {
    ColourSame(g, r);
    ColourSame(g, b);
  }

  /** output channel k of colour (r, g, b): the colour matrix in 24.8 fixed point, then the tone curve */
  function Pictured(matrix: (int, int) -> int, lut: int -> int, r: int, g: int, b: int, k: int): int {
    lut(Wrap(Quotient(matrix(2 - k, 0) * r + matrix(2 - k, 1) * g + matrix(2 - k, 2) * b + matrix(2 - k, 3), 256)))
  }

  lemma CorrectedIs(matrix: (int, int) -> int, lut: int -> int, red: Stage<int>, green: Stage<int>, blue: Stage<int>,
                    corrected: Stage<int>, process: Stage<int>, k: int, i: int, j: int)
    requires ColourLaw(SourceKernels(true, matrix, lut), red, green, blue, corrected)
    requires CurveLaw(SourceKernels(true, matrix, lut), corrected, process)
    ensures process(k, i, j) == Pictured(matrix, lut, red(0, i, j), green(0, i, j), blue(0, i, j), k)
  {
    var r, g, b := red(0, i, j), green(0, i, j), blue(0, i, j);
    var n := matrix(2 - k, 3) + matrix(2 - k, 0) * r + matrix(2 - k, 1) * g + matrix(2 - k, 2) * b;
    assert corrected(k, i, j) == Wrap(Quotient(n, 256));
    assert process(k, i, j) == lut(corrected(k, i, j));
    assert n == matrix(2 - k, 0) * r + matrix(2 - k, 1) * g + matrix(2 - k, 2) * b + matrix(2 - k, 3);
  }

  lemma UniformProcessed(matrix: (int, int) -> int, lut: int -> int, s: Stages<int>, r: int, g: int, b: int, p: int, q: int, k: int, i: int, j: int)
    requires Lawful(SourceKernels(true, matrix, lut), s) && UniformBut(s.sensors.raw, r, g, b, p, q)
    requires Is16Bit(r) && Is16Bit(g) && Is16Bit(b)
    ensures s.process(k, i, j) == Pictured(matrix, lut, r, g, b, k)
  {
    UniformColours(matrix, lut, s, r, g, b, p, q, i, j);
    CorrectedIs(matrix, lut, s.red.all, s.green.all, s.blue.all, s.corrected, s.process, k, i, j);
  }

  /** The fused code gives every pixel of the scene that picture, whatever the broken cell says. */
  method FusedUniform(raw: Window<int>, matrix: (int, int) -> int, lut: int -> int, stray: (int, int, int) -> int,
                      r: int, g: int, b: int, p: int, q: int)
    returns (fused: Window<int>)
    requires raw.buf.Valid() && Is16Bit(r) && Is16Bit(g) && Is16Bit(b)
    requires forall i, j {:trigger raw.At(0, i, j)} :: 0 <= i < R && 0 <= j < C && (i != p || j != q) ==> raw.At(0, i, j) == Cell(r, g, b, i, j)
    ensures CanStore(fused, 3, Image)
    ensures forall k, i, j :: 0 <= k <= 2 && 12 <= i <= 1931 && 16 <= j <= 2543 ==> fused.At(k, i, j) == Pictured(matrix, lut, r, g, b, k)
  {
    var e := SourceKernels(true, matrix, lut);
    ghost var f := Snapshot(raw);
    ghost var scene: Stage<int> := (k, i, j) => if 0 <= i < R && 0 <= j < C then f(k, i, j) else Cell(r, g, b, i, j);
    ghost var s := MakeStages(e, scene);
    fused := Fused(e, raw, stray, s);
    forall k, i, j | 0 <= k <= 2 && 12 <= i <= 1931 && 16 <= j <= 2543 ensures fused.At(k, i, j) == Pictured(matrix, lut, r, g, b, k) {
      UniformProcessed(matrix, lut, s, r, g, b, p, q, k, i, j);
    }
  }
}
