/** The whole camera pipeline over one set of buffers. The fused code runs it once per tile, over scratchpads; the
    naive code runs it once, over full-size buffers. They differ in the bounds. Nests that do not depend on each
    other are grouped by colour here; the files list them in another order. */
module CameraPipe {
  import opened Buffers
  import opened CameraSpec
  import opened CameraStages

  /** What the nests store: even and odd columns of the two woven half-height images, then even and odd rows. */
  datatype Weaving = Weaving(even1: Box, odd1: Box, even2: Box, odd2: Box, evenRows: Box, oddRows: Box) {
    predicate Covers(h: Box) {
      ColsCover(even1, odd1, h) && ColsCover(even2, odd2, h) && RowsCover(evenRows, oddRows, h)
    }
  }

  datatype Bounds = Bounds(denoised: Box, deint: Box, sensors: Box, guesses: Box, chroma: Box,
                           green: Weaving, red: Weaving, blue: Weaving, corrected: Box, process: Box)
  {
    /** The half-resolution cells h are where the output comes from; each nest stores what they depend on. */
    predicate Cover(h: Box) {
      && denoised.Contains(Full(Around(h, 2))) && deint.Contains(Around(h, 2)) && sensors.Contains(Around(h, 2))
      && guesses.Contains(Around(h, 1)) && chroma.Contains(h)
      && green.Covers(h) && red.Covers(h) && blue.Covers(h)
      && corrected.Contains(Full(h)) && process == Full(h)
    }
  }

  function Around(b: Box, n: nat): Box { b.Grow(n, n, n, n) }

  datatype SensorPads<!P(0)> = SensorPads(denoised: Window<P>, deint: Window<P>,
                                          r_r: Window<P>, g_gr: Window<P>, b_b: Window<P>, g_gb: Window<P>)
  {
    function Data(): set<array<P>> {
      {denoised.buf.data, deint.buf.data, r_r.buf.data, g_gr.buf.data, b_b.buf.data, g_gb.buf.data}
    }

    ghost predicate Ok(b: Bounds) {
      && Apart()
      && Stores(denoised, 0, b.denoised)
      && Stores(deint, 0, b.deint) && Stores(deint, 1, b.deint) && Stores(deint, 2, b.deint) && Stores(deint, 3, b.deint)
      && Stores(r_r, 0, b.sensors) && Stores(g_gr, 0, b.sensors) && Stores(b_b, 0, b.sensors) && Stores(g_gb, 0, b.sensors)
    }

    predicate Apart() {
      && denoised.buf.data !in {deint.buf.data, r_r.buf.data, g_gr.buf.data, b_b.buf.data, g_gb.buf.data}
      && deint.buf.data !in {r_r.buf.data, g_gr.buf.data, b_b.buf.data, g_gb.buf.data}
      && r_r.buf.data !in {g_gr.buf.data, b_b.buf.data, g_gb.buf.data}
      && g_gr.buf.data !in {b_b.buf.data, g_gb.buf.data} && b_b.buf.data != g_gb.buf.data
    }

    /** The four sensor images are there. */
    ghost predicate Hold(s: Sensors<P>, box: Box)
      reads r_r.buf.data, g_gr.buf.data, b_b.buf.data, g_gb.buf.data
    {
      Plane(r_r, 0, box, s.r_r) && Plane(g_gr, 0, box, s.g_gr) && Plane(b_b, 0, box, s.b_b) && Plane(g_gb, 0, box, s.g_gb)
    }
  }

  /** denoised, then its four subsamplings: camera_pipe_polymage.cpp:124-282 */
  method Deinterleave<P(0, !new)>(e: Kernels<P>, raw: Window<P>, p: SensorPads<P>, b: Bounds,
                                  ghost h: Box, ghost have: Box, ghost s: Sensors<P>)
    requires SensorLaws(e, s) && Plane(raw, 0, have, s.raw) && have.Contains(Around(Full(Around(h, 2)), 2))
    requires b.Cover(h) && p.Ok(b) && raw.buf.data !in p.Data()
    modifies p.denoised.buf.data, p.deint.buf.data
    ensures Plane(p.deint, 0, Around(h, 2), s.deint) && Plane(p.deint, 1, Around(h, 2), s.deint)
    ensures Plane(p.deint, 2, Around(h, 2), s.deint) && Plane(p.deint, 3, Around(h, 2), s.deint)
  {
    ghost var near := Around(h, 2);
    DenoiseNest(e, raw, p.denoised, b.denoised, Full(near), have, s.raw, s.denoised);
    SampleNest(p.denoised, p.deint, 0, 0, 0, b.deint, near, Full(near), s.denoised, s.deint);
    SampleNest(p.denoised, p.deint, 1, 0, 1, b.deint, near, Full(near), s.denoised, s.deint);
    SampleNest(p.denoised, p.deint, 2, 1, 0, b.deint, near, Full(near), s.denoised, s.deint);
    SampleNest(p.denoised, p.deint, 3, 1, 1, b.deint, near, Full(near), s.denoised, s.deint);
  }

  /** camera_pipe_polymage.cpp:124-330 */
  method SensorPhase<P(0, !new)>(e: Kernels<P>, raw: Window<P>, p: SensorPads<P>, b: Bounds,
                                 ghost h: Box, ghost have: Box, ghost s: Sensors<P>)
    requires SensorLaws(e, s) && Plane(raw, 0, have, s.raw) && have.Contains(Around(Full(Around(h, 2)), 2))
    requires b.Cover(h) && p.Ok(b) && raw.buf.data !in p.Data()
    modifies p.Data()
    ensures p.Hold(s, Around(h, 2))
  {
    ghost var near := Around(h, 2);
    Deinterleave(e, raw, p, b, h, have, s);
    CopyNest(p.deint, 1, p.r_r, b.sensors, near, near, s.deint, s.r_r);
    CopyNest(p.deint, 0, p.g_gr, b.sensors, near, near, s.deint, s.g_gr);
    CopyNest(p.deint, 2, p.b_b, b.sensors, near, near, s.deint, s.b_b);
    CopyNest(p.deint, 3, p.g_gb, b.sensors, near, near, s.deint, s.g_gb);
  }

  /** The scratch of a channel: up to three interpolated images (green has two), the woven ones and the result. */
  datatype ChannelPads<!P(0)> = ChannelPads(p: Window<P>, q: Window<P>, r: Window<P>,
                                            x1: Window<P>, x2: Window<P>, all: Window<P>)
  {
    function Data(): set<array<P>> {
      {p.buf.data, q.buf.data, r.buf.data, x1.buf.data, x2.buf.data, all.buf.data}
    }

    ghost predicate Ok(parts: Box, w: Weaving) {
      && Apart()
      && Stores(p, 0, parts) && Stores(q, 0, parts) && Stores(r, 0, parts)
      && Stores(x1, 0, w.even1) && Stores(x1, 0, w.odd1) && Stores(x2, 0, w.even2) && Stores(x2, 0, w.odd2)
      && Stores(all, 0, w.evenRows) && Stores(all, 0, w.oddRows)
    }

    predicate Apart() {
      && p.buf.data !in {q.buf.data, r.buf.data, x1.buf.data, x2.buf.data, all.buf.data}
      && q.buf.data !in {r.buf.data, x1.buf.data, x2.buf.data, all.buf.data}
      && r.buf.data !in {x1.buf.data, x2.buf.data, all.buf.data}
      && x1.buf.data !in {x2.buf.data, all.buf.data} && x2.buf.data != all.buf.data
    }
  }

  /** Four half-resolution images become one. */
  method Weave<P(0, !new)>(even1: Window<P>, odd1: Window<P>, even2: Window<P>, odd2: Window<P>,
                           x1: Window<P>, x2: Window<P>, all: Window<P>, w: Weaving, ghost h: Box, ghost c: Channel<P>)
    requires Plane(even1, 0, h, c.even1) && Plane(odd1, 0, h, c.odd1) && Plane(even2, 0, h, c.even2) && Plane(odd2, 0, h, c.odd2)
    requires w.Covers(h) && ChannelLaws(c)
    requires Stores(x1, 0, w.even1) && Stores(x1, 0, w.odd1) && Stores(x2, 0, w.even2) && Stores(x2, 0, w.odd2)
    requires Stores(all, 0, w.evenRows) && Stores(all, 0, w.oddRows)
    requires x1.buf.data !in {even1.buf.data, odd1.buf.data, even2.buf.data, odd2.buf.data, x2.buf.data, all.buf.data}
    requires x2.buf.data !in {even2.buf.data, odd2.buf.data, all.buf.data}
    modifies x1.buf.data, x2.buf.data, all.buf.data
    ensures Plane(all, 0, Full(h), c.all)
  {
    WeaveCols(even1, odd1, x1, w.even1, w.odd1, h, h, c.even1, c.odd1, c.x1);
    WeaveCols(even2, odd2, x2, w.even2, w.odd2, h, h, c.even2, c.odd2, c.x2);
    WeaveRows(x1, x2, all, w.evenRows, w.oddRows, h, c.x1, c.x2, c.all);
  }

  /** g_r in p, g_b in q */
  method GreenPhase<P(0, !new)>(e: Kernels<P>, from: SensorPads<P>, g: ChannelPads<P>, b: Bounds,
                                ghost h: Box, ghost s: Sensors<P>, ghost c: Channel<P>)
    requires GreenLaws(e, s, c) && b.Cover(h) && from.Hold(s, Around(h, 2))
    requires g.Ok(b.guesses, b.green) && from.Data() !! g.Data()
    modifies g.Data()
    ensures Plane(g.p, 0, Around(h, 1), c.odd1) && Plane(g.q, 0, Around(h, 1), c.even2) && Plane(g.all, 0, Full(h), c.all)
  {
    GuessNest(e, from.g_gr, 1, from.g_gb, -1, g.p, b.guesses, Around(h, 1), Around(h, 2), s.g_gr, s.g_gb, c.odd1);
    GuessNest(e, from.g_gb, -1, from.g_gr, 1, g.q, b.guesses, Around(h, 1), Around(h, 2), s.g_gb, s.g_gr, c.even2);
    Weave(from.g_gr, g.p, g.q, from.g_gb, g.x1, g.x2, g.all, b.green, h, c);
  }

  /** r_gr in p, r_b in q, r_gb in r */
  method RedPhase<P(0, !new)>(e: Kernels<P>, from: SensorPads<P>, g: ChannelPads<P>, r: ChannelPads<P>, b: Bounds,
                              ghost h: Box, ghost s: Sensors<P>, ghost c: Channel<P>, ghost red: Channel<P>)
    requires RedLaws(e, s, c, red) && b.Cover(h) && from.Hold(s, Around(h, 2))
    requires Plane(g.p, 0, Around(h, 1), c.odd1) && Plane(g.q, 0, Around(h, 1), c.even2)
    requires r.Ok(b.chroma, b.red) && from.Data() !! r.Data() && g.Data() !! r.Data()
    modifies r.Data()
    ensures Plane(r.all, 0, Full(h), red.all)
  {
    ShiftNest(e, from.g_gr, g.p, from.r_r, 0, -1, r.p, b.chroma, h, Around(h, 1), s.g_gr, c.odd1, s.r_r, red.even1);
    DiagonalNest(e, g.q, g.p, from.r_r, 1, r.q, b.chroma, h, Around(h, 1), c.even2, c.odd1, s.r_r, red.even2);
    ShiftNest(e, from.g_gb, g.p, from.r_r, 1, 0, r.r, b.chroma, h, Around(h, 1), s.g_gb, c.odd1, s.r_r, red.odd2);
    Weave(r.p, from.r_r, r.q, r.r, r.x1, r.x2, r.all, b.red, h, red);
  }

  /** b_gr in p, b_r in q, b_gb in r */
  method BluePhase<P(0, !new)>(e: Kernels<P>, from: SensorPads<P>, g: ChannelPads<P>, r: ChannelPads<P>, b: Bounds,
                               ghost h: Box, ghost s: Sensors<P>, ghost c: Channel<P>, ghost blue: Channel<P>)
    requires BlueLaws(e, s, c, blue) && b.Cover(h) && from.Hold(s, Around(h, 2))
    requires Plane(g.p, 0, Around(h, 1), c.odd1) && Plane(g.q, 0, Around(h, 1), c.even2)
    requires r.Ok(b.chroma, b.blue) && from.Data() !! r.Data() && g.Data() !! r.Data()
    modifies r.Data()
    ensures Plane(r.all, 0, Full(h), blue.all)
  {
    ShiftNest(e, from.g_gr, g.q, from.b_b, -1, 0, r.p, b.chroma, h, Around(h, 1), s.g_gr, c.even2, s.b_b, blue.even1);
    DiagonalNest(e, g.p, g.q, from.b_b, -1, r.q, b.chroma, h, Around(h, 1), c.odd1, c.even2, s.b_b, blue.odd1);
    ShiftNest(e, from.g_gb, g.q, from.b_b, 0, 1, r.r, b.chroma, h, Around(h, 1), s.g_gb, c.even2, s.b_b, blue.odd2);
    Weave(r.p, r.q, from.b_b, r.r, r.x1, r.x2, r.all, b.blue, h, blue);
  }

  /** camera_pipe_polymage.cpp:679-729 */
  method OutPhase<P(0, !new)>(e: Kernels<P>, red: Window<P>, green: Window<P>, blue: Window<P>, corrected: Window<P>,
                              process: Window<P>, b: Bounds, ghost h: Box, ghost s: Stages<P>)
    requires ColourLaw(e, s.red.all, s.green.all, s.blue.all, s.corrected) && CurveLaw(e, s.corrected, s.process)
    requires Plane(red, 0, Full(h), s.red.all) && Plane(green, 0, Full(h), s.green.all) && Plane(blue, 0, Full(h), s.blue.all)
    requires b.Cover(h) && CanStore(corrected, 3, b.corrected) && CanStore(process, 3, b.process)
    requires corrected.buf.data !in {red.buf.data, green.buf.data, blue.buf.data, process.buf.data}
    modifies corrected.buf.data, process.buf.data
    ensures Holds(process, 3, b.process, s.process)
    ensures forall k, i, j {:trigger process.At(k, i, j)} :: !b.process.Has(i, j) ==> process.At(k, i, j) == old(process.At(k, i, j))
  {
    ColourNest(e, red, green, blue, corrected, 2, b.corrected, Full(h), s.red.all, s.green.all, s.blue.all, s.corrected);
    ColourNest(e, red, green, blue, corrected, 1, b.corrected, Full(h), s.red.all, s.green.all, s.blue.all, s.corrected);
    ColourNest(e, red, green, blue, corrected, 0, b.corrected, Full(h), s.red.all, s.green.all, s.blue.all, s.corrected);
    CurveNest(e, corrected, process, b.process, s.corrected, s.process);
  }

  datatype Pads<!P(0)> = Pads(sensors: SensorPads<P>, green: ChannelPads<P>, red: ChannelPads<P>, blue: ChannelPads<P>,
                              corrected: Window<P>)
  {
    function Data(): set<array<P>> {
      sensors.Data() + green.Data() + red.Data() + blue.Data() + {corrected.buf.data}
    }

    ghost predicate Ok(b: Bounds) {
      && sensors.Ok(b) && green.Ok(b.guesses, b.green) && red.Ok(b.chroma, b.red) && blue.Ok(b.chroma, b.blue)
      && CanStore(corrected, 3, b.corrected) && Apart()
    }

    predicate Apart() {
      && sensors.Data() !! green.Data() && sensors.Data() !! red.Data() && sensors.Data() !! blue.Data()
      && green.Data() !! red.Data() && green.Data() !! blue.Data() && red.Data() !! blue.Data()
      && corrected.buf.data !in sensors.Data() && corrected.buf.data !in green.Data()
      && corrected.buf.data !in red.Data() && corrected.buf.data !in blue.Data()
    }
  }

  /** The three channels from the sensors. */
  method ColourPhases<P(0, !new)>(e: Kernels<P>, p: Pads<P>, b: Bounds, ghost h: Box, ghost s: Stages<P>)
    requires Lawful(e, s) && b.Cover(h) && p.Ok(b) && p.sensors.Hold(s.sensors, Around(h, 2))
    modifies p.green.Data(), p.red.Data(), p.blue.Data()
    ensures Plane(p.red.all, 0, Full(h), s.red.all) && Plane(p.green.all, 0, Full(h), s.green.all)
    ensures Plane(p.blue.all, 0, Full(h), s.blue.all)
  {
    GreenPhase(e, p.sensors, p.green, b, h, s.sensors, s.green);
    RedPhase(e, p.sensors, p.green, p.red, b, h, s.sensors, s.green, s.red);
    BluePhase(e, p.sensors, p.green, p.blue, b, h, s.sensors, s.green, s.blue);
  }

  method Pipe<P(0, !new)>(e: Kernels<P>, raw: Window<P>, p: Pads<P>, process: Window<P>, b: Bounds,
                          ghost h: Box, ghost have: Box, ghost s: Stages<P>)
    requires Lawful(e, s) && Plane(raw, 0, have, s.sensors.raw) && have.Contains(Around(Full(Around(h, 2)), 2))
    requires b.Cover(h) && p.Ok(b) && CanStore(process, 3, b.process)
    requires raw.buf.data !in p.Data() && process.buf.data !in p.Data() && process.buf.data != raw.buf.data
    modifies p.Data(), process.buf.data
    ensures Plane(raw, 0, have, s.sensors.raw)
    ensures Holds(process, 3, b.process, s.process)
    ensures forall k, i, j {:trigger process.At(k, i, j)} :: !b.process.Has(i, j) ==> process.At(k, i, j) == old(process.At(k, i, j))
  {
    SensorPhase(e, raw, p.sensors, b, h, have, s.sensors);
    ColourPhases(e, p, b, h, s);
    OutPhase(e, p.red.all, p.green.all, p.blue.all, p.corrected, process, b, h, s);
  }
}
