/** Clipping a wire line to the readout rectangle and laying out pitched wires.
    The same two pieces of logic appear in protodunevd/tpcs.py and in
    dunefdvd/Wires.py; they are modelled once here. Lengths are exact reals. */
module WireClip {
  import opened Wrappers

  /** Tolerance below which a direction component counts as zero. */
  const Tol: real := 0.0001

  function Abs(x: real): (r: real)
    ensures r >= 0.0 && (r == x || r == -x)
  {
    if x < 0.0 then -x else x
  }

  /** The chained comparison `0 <= v <= hi`. */
  predicate Within(v: real, hi: real)
  {
    0.0 <= v <= hi
  }

  /** (px, py) lies on the border of [0, rcl] x [0, rcw]. */
  predicate OnBorder(px: real, py: real, rcl: real, rcw: real)
  {
    Within(px, rcl) && Within(py, rcw) &&
    (px == 0.0 || px == rcl || py == 0.0 || py == rcw)
  }

  /** (px, py) lies on the line through (x0, y0) with direction (nx, ny). */
  predicate OnLine(px: real, py: real, x0: real, y0: real, nx: real, ny: real)
  {
    (px - x0) * ny == (py - y0) * nx
  }

  /** The crossing of the line through (x0, y0) along (nx, ny) with x = 0 (its y). */
  function LeftCrossing(x0: real, y0: real, nx: real, ny: real): real
    requires nx != 0.0
  {
    y0 - x0 * ny / nx
  }

  /** The crossing with x = rcl (its y). */
  function RightCrossing(x0: real, y0: real, nx: real, ny: real, rcl: real): real
    requires nx != 0.0
  {
    y0 + (rcl - x0) * ny / nx
  }

  /** The crossing with y = 0 (its x). */
  function BottomCrossing(x0: real, y0: real, nx: real, ny: real): real
    requires ny != 0.0
  {
    x0 - y0 * nx / ny
  }

  /** The crossing with y = rcw (its x). */
  function TopCrossing(x0: real, y0: real, nx: real, ny: real, rcw: real): real
    requires ny != 0.0
  {
    x0 + (rcw - y0) * nx / ny
  }

  /** Reference definition: the crossings of the line with the left, right,
      bottom and top borders, in that order, each kept when it lies on the
      rectangle. */
  function BorderHits(x0: real, y0: real, nx: real, ny: real, rcl: real, rcw: real): seq<real>
    requires nx != 0.0 && ny != 0.0
  {
    var yl := LeftCrossing(x0, y0, nx, ny);
    var yr := RightCrossing(x0, y0, nx, ny, rcl);
    var xb := BottomCrossing(x0, y0, nx, ny);
    var xt := TopCrossing(x0, y0, nx, ny, rcw);
    (if Within(yl, rcw) then [0.0, yl] else []) +
    (if Within(yr, rcw) then [rcl, yr] else []) +
    (if Within(xb, rcl) then [xb, 0.0] else []) +
    (if Within(xt, rcl) then [xt, rcw] else [])
  }

  /** At most the first four values of `s`. */
  function TakeFour(s: seq<real>): seq<real>
  {
    if |s| <= 4 then s else s[..4]
  }

  /** line_clip: the end points of the line through (x0, y0) along (nx, ny)
      inside the rectangle [0, rcl] x [0, rcw], as a flat list x, y, x, y,
      returning as soon as four values are found. */
  function LineClip(x0: real, y0: real, nx: real, ny: real, rcl: real, rcw: real): seq<real>
  {
    if Abs(nx) < Tol then [x0, 0.0, x0, rcw]
    else if Abs(ny) < Tol then [0.0, y0, rcl, y0]
    else
      var yl := LeftCrossing(x0, y0, nx, ny);
      var e1 := if Within(yl, rcw) then [0.0, yl] else [];
      var yr := RightCrossing(x0, y0, nx, ny, rcl);
      var e2 := if Within(yr, rcw) then e1 + [rcl, yr] else e1;
      if |e2| == 4 then e2
      else
        var xb := BottomCrossing(x0, y0, nx, ny);
        var e3 := if Within(xb, rcl) then e2 + [xb, 0.0] else e2;
        if |e3| == 4 then e3
        else
          var xt := TopCrossing(x0, y0, nx, ny, rcw);
          if Within(xt, rcl) then e3 + [xt, rcw] else e3
  }

  /** A wire direction with |nx| below the tolerance gives the vertical segment at x0. */
  lemma LineClipVertical(x0: real, y0: real, nx: real, ny: real, rcl: real, rcw: real)
    requires Abs(nx) < Tol
    ensures LineClip(x0, y0, nx, ny, rcl, rcw) == [x0, 0.0, x0, rcw]
  {
  }

  /** Otherwise |ny| below the tolerance gives the horizontal segment at y0. */
  lemma LineClipHorizontal(x0: real, y0: real, nx: real, ny: real, rcl: real, rcw: real)
    requires Abs(nx) >= Tol && Abs(ny) < Tol
    ensures LineClip(x0, y0, nx, ny, rcl, rcw) == [0.0, y0, rcl, y0]
  {
  }

  /** In the general case the early returns keep exactly the first four
      values of the reference list of border crossings. */
  lemma LineClipGeneral(x0: real, y0: real, nx: real, ny: real, rcl: real, rcw: real)
    requires Abs(nx) >= Tol && Abs(ny) >= Tol
    ensures LineClip(x0, y0, nx, ny, rcl, rcw) == TakeFour(BorderHits(x0, y0, nx, ny, rcl, rcw))
  {
  }

  /** The result holds no, one or two points. */
  lemma LineClipLength(x0: real, y0: real, nx: real, ny: real, rcl: real, rcw: real)
    ensures var n := |LineClip(x0, y0, nx, ny, rcl, rcw)|; n == 0 || n == 2 || n == 4
  {
  }

  /** In the general case every point reported lies on the border of the
      rectangle (when the rectangle is not degenerate). */
  lemma LineClipOnBorder(x0: real, y0: real, nx: real, ny: real, rcl: real, rcw: real)
    requires Abs(nx) >= Tol && Abs(ny) >= Tol && rcl >= 0.0 && rcw >= 0.0
    ensures var r := LineClip(x0, y0, nx, ny, rcl, rcw);
      (|r| >= 2 ==> OnBorder(r[0], r[1], rcl, rcw)) &&
      (|r| == 4 ==> OnBorder(r[2], r[3], rcl, rcw))
  {
  }

  /** In the general case every point reported lies on the clipped line. */
  lemma ClipOnLine(x0: real, y0: real, nx: real, ny: real, rcl: real, rcw: real)
    requires Abs(nx) >= Tol && Abs(ny) >= Tol
    ensures var r := LineClip(x0, y0, nx, ny, rcl, rcw);
      (|r| >= 2 ==> OnLine(r[0], r[1], x0, y0, nx, ny)) &&
      (|r| == 4 ==> OnLine(r[2], r[3], x0, y0, nx, ny))
  {
    CrossingOnLine(x0 * ny, nx);
    CrossingOnLine((rcl - x0) * ny, nx);
    CrossingOnLine(y0 * nx, ny);
    CrossingOnLine((rcw - y0) * nx, ny);
    assert OnLine(0.0, LeftCrossing(x0, y0, nx, ny), x0, y0, nx, ny);
    assert OnLine(rcl, RightCrossing(x0, y0, nx, ny, rcl), x0, y0, nx, ny);
    assert OnLine(BottomCrossing(x0, y0, nx, ny), 0.0, x0, y0, nx, ny);
    assert OnLine(TopCrossing(x0, y0, nx, ny, rcw), rcw, x0, y0, nx, ny);
  }

  lemma CrossingOnLine(a: real, d: real)
    requires d != 0.0
    ensures (a / d) * d == a
  {
  }

  /** One wire record: channel, centre, length and the two end points. */
  datatype Wire = Wire(ch: int, cx: real, cy: real, len: real, x1: real, y1: real, x2: real, y2: real)

  /** The inputs of one wire layout: the rectangle, the pitch, the wire and
      pitch directions (results of cos/sin, passed in), the starting point and
      the starting offset along the pitch direction. */
  datatype Layout = Layout(
    length: real, width: real, pitch: real,
    nx: real, ny: real,        // wire direction
    px: real, py: real,        // pitch direction
    ox: real, oy: real,        // starting point
    offset0: real)

  /** The starting point: the given offsets, measured from the far side along
      each axis on which the pitch direction is negative. */
  function Origin(length: real, width: real, px: real, py: real, offx: real, offy: real): (o: (real, real))
    ensures o.0 == (if px < 0.0 then length - offx else offx)
    ensures o.1 == (if py < 0.0 then width - offy else offy)
    ensures px >= 0.0 && py >= 0.0 ==> o == (offx, offy)
  {
    var x := if px < 0.0 then length - offx else offx;
    var y := if py < 0.0 then width - offy else offy;
    (x, y)
  }

  /** The offset along the pitch direction of channel `ch`: it grows by one
      pitch per channel, whether or not the channel's wire was kept. */
  function OffsetOf(l: Layout, ch: nat): real
  {
    l.offset0 + (ch as real) * l.pitch
  }

  /** The coordinate `o` moved by `t` along direction component `d`. */
  function Along(o: real, t: real, d: real): real
  {
    o + t * d
  }

  /** Python's `v**2`. */
  function Sq(v: real): real
  {
    v * v
  }

  /** The reference point of channel `ch`: the starting point moved by the
      channel's offset along the pitch direction. */
  function RefPoint(l: Layout, ch: nat): (real, real)
  {
    (Along(l.ox, OffsetOf(l, ch), l.px), Along(l.oy, OffsetOf(l, ch), l.py))
  }

  /** The wire record built from four clipped coordinates: the end points
      recentred on the rectangle's centre, the centre their midpoint and the
      length `sqrt` of the squared distance between them. */
  function WireOf(ch: int, e: seq<real>, length: real, width: real, sqrt: real -> real): (w: Wire)
    requires |e| == 4
    ensures w.ch == ch
    ensures w.x1 + length / 2.0 == e[0] && w.y1 + width / 2.0 == e[1]
    ensures w.x2 + length / 2.0 == e[2] && w.y2 + width / 2.0 == e[3]
    ensures w.cx == (w.x1 + w.x2) / 2.0 && w.cy == (w.y1 + w.y2) / 2.0
    ensures w.len == sqrt(Sq(w.x1 - w.x2) + Sq(w.y1 - w.y2))
  {
    var x1, y1, x2, y2 := e[0] - length / 2.0, e[1] - width / 2.0, e[2] - length / 2.0, e[3] - width / 2.0;
    var dx, dy := x1 - x2, y1 - y2;
    Wire(ch, (x1 + x2) / 2.0, (y1 + y2) / 2.0, sqrt(Sq(dx) + Sq(dy)), x1, y1, x2, y2)
  }

  /** The wire of channel `ch`, or None when its line does not clip to four
      coordinates. */
  function ClippedWire(l: Layout, ch: nat, sqrt: real -> real): (r: Option<Wire>)
    ensures r.Some? ==>
              r.value.ch == ch && Centred(r.value) &&
              r.value.len == sqrt(Sq(r.value.x1 - r.value.x2) + Sq(r.value.y1 - r.value.y2))
  {
    var p := RefPoint(l, ch);
    var e := LineClip(p.0, p.1, l.nx, l.ny, l.length, l.width);
    if |e| != 4 then None else Some(WireOf(ch, e, l.length, l.width, sqrt))
  }

  /** The clipping outcome of channels 0 .. n-1, in order. */
  function Clips(l: Layout, n: nat, sqrt: real -> real): (os: seq<Option<Wire>>)
    ensures |os| == n
  {
    seq(n, ch requires 0 <= ch < n => ClippedWire(l, ch, sqrt))
  }

  /** The present values of a sequence of options, in order. */
  function Kept<T>(os: seq<Option<T>>): seq<T>
    decreases |os|
  {
    if |os| == 0 then []
    else
      var o := os[|os| - 1];
      Kept(os[..|os| - 1]) + (if o.Some? then [o.value] else [])
  }

  /** The wires of channels 0 .. n-1 that clip, in channel order. */
  function Generated(l: Layout, n: nat, sqrt: real -> real): seq<Wire>
  {
    Kept(Clips(l, n, sqrt))
  }

  /** The channel loop of generate_wires: `nch` channels, the offset advanced
      by one pitch per channel, unclipped channels skipped. */
  method GenerateWires(l: Layout, nch: nat, sqrt: real -> real) returns (winfo: seq<Wire>)
    ensures winfo == Generated(l, nch, sqrt)
  {
    winfo := [];
    var offset := l.offset0;
    var ch := 0;
    while ch < nch
      invariant 0 <= ch <= nch
      invariant offset == OffsetOf(l, ch)
      invariant winfo == Generated(l, ch, sqrt)
    {
      var wcn := (Along(l.ox, offset, l.px), Along(l.oy, offset, l.py));
      var endpts := LineClip(wcn.0, wcn.1, l.nx, l.ny, l.length, l.width);
      if |endpts| != 4 {
        assert winfo == Generated(l, ch + 1, sqrt) by { GeneratedStep(l, ch, sqrt, endpts); }
        OffsetStep(l, ch);
        offset := offset + l.pitch;
        ch := ch + 1;
        continue;
      }
      assert winfo + [WireOf(ch, endpts, l.length, l.width, sqrt)] == Generated(l, ch + 1, sqrt) by {
        GeneratedStep(l, ch, sqrt, endpts);
      }
      winfo := winfo + [WireOf(ch, endpts, l.length, l.width, sqrt)];
      OffsetStep(l, ch);
      offset := offset + l.pitch;
      ch := ch + 1;
    }
  }

  /** Advancing by one pitch moves the offset to the next channel's. */
  lemma OffsetStep(l: Layout, ch: nat)
    ensures OffsetOf(l, ch + 1) == OffsetOf(l, ch) + l.pitch
  {
  }

  /** One more channel extends the generated list by that channel's wire, if it clips. */
  lemma GeneratedStep(l: Layout, ch: nat, sqrt: real -> real, e: seq<real>)
    requires e == LineClip(RefPoint(l, ch).0, RefPoint(l, ch).1, l.nx, l.ny, l.length, l.width)
    ensures Generated(l, ch + 1, sqrt) ==
      Generated(l, ch, sqrt) + (if |e| == 4 then [WireOf(ch, e, l.length, l.width, sqrt)] else [])
  {
    var os := Clips(l, ch + 1, sqrt);
    assert os[..ch] == Clips(l, ch, sqrt);
    assert os[ch] == ClippedWire(l, ch, sqrt);
  }

  /** Channel k's outcome is at position k and names channel k. */
  lemma ClipsNumbered(l: Layout, n: nat, sqrt: real -> real)
    ensures forall k :: 0 <= k < n && Clips(l, n, sqrt)[k].Some? ==>
      Clips(l, n, sqrt)[k] == ClippedWire(l, k, sqrt) && Clips(l, n, sqrt)[k].value.ch == k
  {
  }

  /** Keeping the present values of outcomes numbered by position: at most
      one value per outcome, each the value at its own number, in increasing
      order. */
  lemma {:induction false} KeptNumbered(os: seq<Option<Wire>>)
    requires forall k :: 0 <= k < |os| && os[k].Some? ==> os[k].value.ch == k
    ensures |Kept(os)| <= |os|
    ensures forall k :: 0 <= k < |Kept(os)| ==>
      0 <= Kept(os)[k].ch < |os| && os[Kept(os)[k].ch] == Some(Kept(os)[k])
    ensures forall i, j :: 0 <= i < j < |Kept(os)| ==> Kept(os)[i].ch < Kept(os)[j].ch
    decreases |os|
  {
    if |os| > 0 {
      var q := os[..|os| - 1];
      assert forall k :: 0 <= k < |q| ==> q[k] == os[k];
      KeptNumbered(q);
    }
  }

  /** Every present value is kept. */
  lemma {:induction false} KeptComplete<T>(os: seq<Option<T>>, k: nat)
    requires k < |os| && os[k].Some?
    ensures os[k].value in Kept(os)
    decreases |os|
  {
    if k < |os| - 1 {
      var q := os[..|os| - 1];
      assert q[k] == os[k];
      KeptComplete(q, k);
    }
  }

  /** The generated list keeps exactly the channels below n whose wire clips:
      at most n wires, each carrying its own channel number, in increasing
      channel order. */
  lemma GeneratedChannels(l: Layout, n: nat, sqrt: real -> real)
    ensures var g := Generated(l, n, sqrt);
      |g| <= n &&
      (forall k :: 0 <= k < |g| ==> 0 <= g[k].ch < n && ClippedWire(l, g[k].ch, sqrt) == Some(g[k])) &&
      (forall i, j :: 0 <= i < j < |g| ==> g[i].ch < g[j].ch)
  {
    ClipsNumbered(l, n, sqrt);
    KeptNumbered(Clips(l, n, sqrt));
  }

  /** Every channel below n whose wire clips appears in the generated list. */
  lemma GeneratedComplete(l: Layout, n: nat, ch: nat, sqrt: real -> real)
    requires ch < n && ClippedWire(l, ch, sqrt).Some?
    ensures ClippedWire(l, ch, sqrt).value in Generated(l, n, sqrt)
  {
    assert Clips(l, n, sqrt)[ch] == ClippedWire(l, ch, sqrt);
    KeptComplete(Clips(l, n, sqrt), ch);
  }

  /** A kept wire's end points lie on the border of the rectangle centred on
      the origin, and its stored centre is their midpoint. */
  lemma ClippedWireOnBorder(l: Layout, ch: nat, sqrt: real -> real)
    requires Abs(l.nx) >= Tol && Abs(l.ny) >= Tol && l.length >= 0.0 && l.width >= 0.0
    requires ClippedWire(l, ch, sqrt).Some?
    ensures var w := ClippedWire(l, ch, sqrt).value;
      OnBorder(w.x1 + l.length / 2.0, w.y1 + l.width / 2.0, l.length, l.width) &&
      OnBorder(w.x2 + l.length / 2.0, w.y2 + l.width / 2.0, l.length, l.width) &&
      w.cx == (w.x1 + w.x2) / 2.0 && w.cy == (w.y1 + w.y2) / 2.0 &&
      w.ch == ch
  {
    var p := RefPoint(l, ch);
    LineClipOnBorder(p.0, p.1, l.nx, l.ny, l.length, l.width);
  }

  /** A wire record whose stored centre is the midpoint of its end points. */
  predicate Centred(w: Wire)
  {
    w.cx == (w.x1 + w.x2) / 2.0 && w.cy == (w.y1 + w.y2) / 2.0
  }

  /** Every generated wire is centred and its length is the distance between its end points. */
  lemma GeneratedCentred(l: Layout, n: nat, sqrt: real -> real)
    ensures forall w :: w in Generated(l, n, sqrt) ==>
      Centred(w) && w.len == sqrt(Sq(w.x1 - w.x2) + Sq(w.y1 - w.y2))
  {
    GeneratedChannels(l, n, sqrt);
  }
}
