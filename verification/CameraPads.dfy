/** Allocating and placing the camera pipeline's buffers. */
module CameraPads {
  import opened Buffers
  import opened CameraSpec
  import opened CameraStages
  import opened CameraPipe

  /** The cells each kind of buffer has, in the coordinates of its stage. */
  datatype Sizes = Sizes(denoised: Box, deint: Box, sensors: Box, guesses: Box, chroma: Box, woven: Box, full: Box) {
    predicate Hold(b: Bounds) {
      && denoised.Contains(b.denoised) && deint.Contains(b.deint) && sensors.Contains(b.sensors)
      && guesses.Contains(b.guesses) && chroma.Contains(b.chroma)
      && HoldWeaving(b.green) && HoldWeaving(b.red) && HoldWeaving(b.blue) && full.Contains(b.corrected)
    }

    predicate HoldWeaving(w: Weaving) {
      && woven.Contains(w.even1) && woven.Contains(w.odd1) && woven.Contains(w.even2) && woven.Contains(w.odd2)
      && full.Contains(w.evenRows) && full.Contains(w.oddRows)
    }

    predicate Some() {
      NonEmpty(denoised) && NonEmpty(deint) && NonEmpty(sensors) && NonEmpty(guesses) && NonEmpty(chroma) && NonEmpty(woven) && NonEmpty(full)
    }
  }

  predicate NonEmpty(b: Box) { b.r0 <= b.r1 && b.c0 <= b.c1 }

  lemma SizedStores<P(0)>(w: Window<P>, planes: nat, box: Box, nest: Box)
    requires Sized(w, planes, box) && box.Contains(nest)
    ensures forall k :: 0 <= k < planes ==> Stores(w, k, nest)
    ensures CanStore(w, planes, nest)
  {
  }

  ghost predicate SensorsSized<P(0)>(p: SensorPads<P>, z: Sizes) {
    && Sized(p.denoised, 1, z.denoised) && Sized(p.deint, 4, z.deint) && Sized(p.r_r, 1, z.sensors)
    && Sized(p.g_gr, 1, z.sensors) && Sized(p.b_b, 1, z.sensors) && Sized(p.g_gb, 1, z.sensors)
  }

  ghost predicate ChannelSized<P(0)>(p: ChannelPads<P>, parts: Box, z: Sizes) {
    && Sized(p.p, 1, parts) && Sized(p.q, 1, parts) && Sized(p.r, 1, parts)
    && Sized(p.x1, 1, z.woven) && Sized(p.x2, 1, z.woven) && Sized(p.all, 1, z.full)
  }

  ghost predicate PadsSized<P(0)>(p: Pads<P>, z: Sizes) {
    && SensorsSized(p.sensors, z) && ChannelSized(p.green, z.guesses, z)
    && ChannelSized(p.red, z.chroma, z) && ChannelSized(p.blue, z.chroma, z) && Sized(p.corrected, 3, z.full)
  }

  lemma SensorsFit<P(0)>(p: SensorPads<P>, z: Sizes, b: Bounds)
    requires SensorsSized(p, z) && p.Apart() && z.Hold(b)
    ensures p.Ok(b)
  {
    SizedStores(p.denoised, 1, z.denoised, b.denoised);
    SizedStores(p.deint, 4, z.deint, b.deint);
    SizedStores(p.r_r, 1, z.sensors, b.sensors);
    SizedStores(p.g_gr, 1, z.sensors, b.sensors);
    SizedStores(p.b_b, 1, z.sensors, b.sensors);
    SizedStores(p.g_gb, 1, z.sensors, b.sensors);
  }

  lemma ChannelFits<P(0)>(p: ChannelPads<P>, parts: Box, z: Sizes, b: Box, w: Weaving)
    requires ChannelSized(p, parts, z) && p.Apart() && parts.Contains(b) && z.HoldWeaving(w)
    ensures p.Ok(b, w)
  {
    SizedStores(p.p, 1, parts, b);
    SizedStores(p.q, 1, parts, b);
    SizedStores(p.r, 1, parts, b);
    SizedStores(p.x1, 1, z.woven, w.even1);
    SizedStores(p.x1, 1, z.woven, w.odd1);
    SizedStores(p.x2, 1, z.woven, w.even2);
    SizedStores(p.x2, 1, z.woven, w.odd2);
    SizedStores(p.all, 1, z.full, w.evenRows);
    SizedStores(p.all, 1, z.full, w.oddRows);
  }

  lemma PadsFit<P(0)>(p: Pads<P>, z: Sizes, b: Bounds)
    requires PadsSized(p, z) && PadsApart(p) && z.Hold(b)
    ensures p.Ok(b)
  {
    SensorsFit(p.sensors, z, b);
    ChannelFits(p.green, z.guesses, z, b.guesses, b.green);
    ChannelFits(p.red, z.chroma, z, b.chroma, b.red);
    ChannelFits(p.blue, z.chroma, z, b.chroma, b.blue);
    SizedStores(p.corrected, 3, z.full, b.corrected);
  }

  predicate PadsApart<P(0)>(p: Pads<P>) {
    p.Apart() && p.sensors.Apart() && p.green.Apart() && p.red.Apart() && p.blue.Apart()
  }

  method NewSensorPads<P(0)>(z: Sizes, stray: (int, int, int) -> P) returns (p: SensorPads<P>)
    requires z.Some()
    ensures SensorsSized(p, z) && p.Apart() && fresh(p.Data())
  {
    var denoised := NewWindow(1, z.denoised, stray);
    var deint := NewWindow(4, z.deint, stray);
    var r_r := NewWindow(1, z.sensors, stray);
    var g_gr := NewWindow(1, z.sensors, stray);
    var b_b := NewWindow(1, z.sensors, stray);
    var g_gb := NewWindow(1, z.sensors, stray);
    p := SensorPads(denoised, deint, r_r, g_gr, b_b, g_gb);
  }

  method NewChannelPads<P(0)>(parts: Box, z: Sizes, stray: (int, int, int) -> P) returns (p: ChannelPads<P>)
    requires z.Some() && NonEmpty(parts)
    ensures ChannelSized(p, parts, z) && p.Apart() && fresh(p.Data())
  {
    var p1 := NewWindow(1, parts, stray);
    var p2 := NewWindow(1, parts, stray);
    var p3 := NewWindow(1, parts, stray);
    var x1 := NewWindow(1, z.woven, stray);
    var x2 := NewWindow(1, z.woven, stray);
    var all := NewWindow(1, z.full, stray);
    p := ChannelPads(p1, p2, p3, x1, x2, all);
  }

  method NewChannels<P(0)>(z: Sizes, stray: (int, int, int) -> P)
    returns (green: ChannelPads<P>, red: ChannelPads<P>, blue: ChannelPads<P>)
    requires z.Some()
    ensures ChannelSized(green, z.guesses, z) && green.Apart() && fresh(green.Data())
    ensures ChannelSized(red, z.chroma, z) && red.Apart() && fresh(red.Data())
    ensures ChannelSized(blue, z.chroma, z) && blue.Apart() && fresh(blue.Data())
    ensures green.Data() !! red.Data() && green.Data() !! blue.Data() && red.Data() !! blue.Data()
  {
    green := NewChannelPads(z.guesses, z, stray);
    red := NewChannelPads(z.chroma, z, stray);
    blue := NewChannelPads(z.chroma, z, stray);
  }

  method NewPads<P(0)>(z: Sizes, stray: (int, int, int) -> P) returns (p: Pads<P>)
    requires z.Some()
    ensures PadsSized(p, z) && PadsApart(p) && fresh(p.Data())
  {
    var sensors := NewSensorPads(z, stray);
    var green, red, blue := NewChannels(z, stray);
    var corrected := NewWindow(3, z.full, stray);
    p := Pads(sensors, green, red, blue, corrected);
  }
}
