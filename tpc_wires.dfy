/** The wire and placement logic of the ProtoDUNE-VD TPC builder
    (protodunevd/tpcs.py): one CRU's induction wires, their 180-degree flip
    for the second CRU, the split of a CRU at y = 0 into two quadrants, the
    collection (Z) wires of each quadrant and the placement of the TPC
    volumes in the cryostat. */
module TpcWires {
  import opened Wrappers
  import opened Strings
  import opened WireClip
  import opened Placements

  // ---------------------------------------------------------------------
  // generate_wires

  /** The layout generate_wires uses: the offset starts at 0 and the first
      wire's reference point is the corner offset (w1offx, w1offy). */
  function CruLayout(length: real, width: real, pitch: real, nx: real, ny: real,
                     px: real, py: real, w1offx: real, w1offy: real): Layout
  {
    var o := Origin(length, width, px, py, w1offx, w1offy);
    Layout(length, width, pitch, nx, ny, px, py, o.0, o.1, 0.0)
  }

  /** generate_wires: the wires of one CRU plane, (nx, ny) the wire direction
      and (px, py) the pitch direction. */
  method GenerateCruWires(length: real, width: real, nch: nat, pitch: real, nx: real, ny: real,
                          px: real, py: real, w1offx: real, w1offy: real, sqrt: real -> real)
    returns (winfo: seq<Wire>)
    ensures winfo == Generated(CruLayout(length, width, pitch, nx, ny, px, py, w1offx, w1offy), nch, sqrt)
    ensures |winfo| <= nch
    ensures forall k :: 0 <= k < |winfo| ==> 0 <= winfo[k].ch < nch && Centred(winfo[k])
  {
    var l := CruLayout(length, width, pitch, nx, ny, px, py, w1offx, w1offy);
    winfo := WireClip.GenerateWires(l, nch, sqrt);
    GeneratedChannels(l, nch, sqrt);
    GeneratedCentred(l, nch, sqrt);
  }

  // ---------------------------------------------------------------------
  // flip_wires

  /** The wire turned by 180 degrees about the CRU centre. */
  function Flip(w: Wire): Wire
  {
    Wire(w.ch, -0.5 * (w.x1 + w.x2), -0.5 * (w.y1 + w.y2), w.len, -w.x1, -w.y1, -w.x2, -w.y2)
  }

  /** flip_wires: every wire turned by 180 degrees, channel and length kept. */
  function FlipWires(ws: seq<Wire>): (r: seq<Wire>)
    ensures |r| == |ws|
    ensures forall k :: 0 <= k < |ws| ==>
      r[k].ch == ws[k].ch && r[k].len == ws[k].len &&
      r[k].x1 == -ws[k].x1 && r[k].y1 == -ws[k].y1 &&
      r[k].x2 == -ws[k].x2 && r[k].y2 == -ws[k].y2 &&
      Centred(r[k])
  {
    seq(|ws|, k requires 0 <= k < |ws| => Flip(ws[k]))
  }

  /** A centred wire's flipped centre is its centre negated. */
  lemma FlipNegatesCentre(ws: seq<Wire>, k: nat)
    requires k < |ws| && Centred(ws[k])
    ensures FlipWires(ws)[k].cx == -ws[k].cx && FlipWires(ws)[k].cy == -ws[k].cy
  {
  }

  /** Flipping preserves the relation between a wire's length and its end points. */
  lemma FlipKeepsLength(ws: seq<Wire>, sqrt: real -> real)
    requires forall k :: 0 <= k < |ws| ==> ws[k].len == sqrt(Sq(ws[k].x1 - ws[k].x2) + Sq(ws[k].y1 - ws[k].y2))
    ensures var r := FlipWires(ws);
      forall k :: 0 <= k < |r| ==> r[k].len == sqrt(Sq(r[k].x1 - r[k].x2) + Sq(r[k].y1 - r[k].y2))
  {
    var r := FlipWires(ws);
    forall k | 0 <= k < |r|
      ensures r[k].len == sqrt(Sq(r[k].x1 - r[k].x2) + Sq(r[k].y1 - r[k].y2))
    {
      SqNeg(ws[k].x1 - ws[k].x2);
      SqNeg(ws[k].y1 - ws[k].y2);
      assert r[k].x1 - r[k].x2 == -(ws[k].x1 - ws[k].x2);
      assert r[k].y1 - r[k].y2 == -(ws[k].y1 - ws[k].y2);
    }
  }

  lemma SqNeg(v: real)
    ensures Sq(-v) == Sq(v)
  {
  }

  /** Flipping a list of centred wires twice gives the list back. */
  lemma FlipInvolutive(ws: seq<Wire>)
    requires forall k :: 0 <= k < |ws| ==> Centred(ws[k])
    ensures FlipWires(FlipWires(ws)) == ws
  {
    var r := FlipWires(FlipWires(ws));
    forall k | 0 <= k < |ws|
      ensures r[k] == ws[k]
    {
      FlipNegatesCentre(ws, k);
    }
  }

  // ---------------------------------------------------------------------
  // split_wires

  function Min(a: real, b: real): (m: real)
    ensures m <= a && m <= b && (m == a || m == b)
  {
    if a <= b then a else b
  }

  function Max(a: real, b: real): (m: real)
    ensures m >= a && m >= b && (m == a || m == b)
  {
    if a >= b then a else b
  }

  /** Where a wire lies with respect to the line y = 0. */
  datatype Side = Below | Above | Across

  /** Below when both end points have y < 0, Above when both have y > 0,
      Across otherwise (including a wire touching y = 0). */
  function SideOf(w: Wire): (s: Side)
    ensures s == Below <==> w.y1 < 0.0 && w.y2 < 0.0
    ensures s == Above <==> w.y1 > 0.0 && w.y2 > 0.0
  {
    var lo := Min(w.y1, w.y2);
    var hi := Max(w.y1, w.y2);
    if hi < 0.0 then Below else if lo > 0.0 then Above else Across
  }

  /** The four end-point coordinates of a wire. */
  function Ends(w: Wire): seq<real>
  {
    [w.x1, w.y1, w.x2, w.y2]
  }

  /** make_wire: a record with channel `ich`, end points `e`, centre their
      midpoint and length `len`. */
  function MakeWire(ich: int, e: seq<real>, len: real): (w: Wire)
    requires |e| == 4
    ensures w.ch == ich && w.len == len && Ends(w) == e && Centred(w)
  {
    Wire(ich, (e[0] + e[2]) / 2.0, (e[1] + e[3]) / 2.0, len, e[0], e[1], e[2], e[3])
  }

  /** make_wire without a given length: the distance between the end points. */
  function PieceLength(e: seq<real>, sqrt: real -> real): real
    requires |e| == 4
  {
    sqrt(Sq(e[0] - e[2]) + Sq(e[1] - e[3]))
  }

  /** Where the wire's line, through its centre along (nx, ny), meets y = 0. */
  function CrossX(w: Wire, nx: real, ny: real): real
    requires ny != 0.0
  {
    w.cx + (-w.cy) * nx / ny
  }

  /** The part of a crossing wire on the lower side: from the end point the
      first end point decides to the crossing. */
  function LowerEnds(w: Wire, x: real): seq<real>
  {
    if w.y1 < 0.0 then [w.x1, w.y1, x, 0.0] else [x, 0.0, w.x2, w.y2]
  }

  function UpperEnds(w: Wire, x: real): seq<real>
  {
    if w.y1 < 0.0 then [x, 0.0, w.x2, w.y2] else [w.x1, w.y1, x, 0.0]
  }

  /** The division by ny is only reached for a wire across y = 0. */
  predicate Splittable(ws: seq<Wire>, ny: real)
  {
    ny != 0.0 || forall k :: 0 <= k < |ws| ==> SideOf(ws[k]) != Across
  }

  /** The lower-half record of a wire that is not above y = 0. */
  function LowerPiece(w: Wire, ich: int, nx: real, ny: real, sqrt: real -> real): Wire
    requires SideOf(w) != Above && (SideOf(w) == Across ==> ny != 0.0)
  {
    if SideOf(w) == Below then MakeWire(ich, Ends(w), w.len)
    else
      var e := LowerEnds(w, CrossX(w, nx, ny));
      MakeWire(ich, e, PieceLength(e, sqrt))
  }

  function UpperPiece(w: Wire, ich: int, nx: real, ny: real, sqrt: real -> real): Wire
    requires SideOf(w) != Below && (SideOf(w) == Across ==> ny != 0.0)
  {
    if SideOf(w) == Above then MakeWire(ich, Ends(w), w.len)
    else
      var e := UpperEnds(w, CrossX(w, nx, ny));
      MakeWire(ich, e, PieceLength(e, sqrt))
  }

  lemma SplittablePrefix(ws: seq<Wire>, ny: real, n: nat)
    requires n <= |ws| && Splittable(ws, ny)
    ensures Splittable(ws[..n], ny)
  {
    if ny == 0.0 {
      forall k | 0 <= k < n
        ensures SideOf(ws[..n][k]) != Across
      {
        assert ws[..n][k] == ws[k];
      }
    }
  }

  /** The lower-half list before the y shift: one record per wire not above
      y = 0, numbered in order. */
  function LowerList(ws: seq<Wire>, nx: real, ny: real, sqrt: real -> real): seq<Wire>
    requires Splittable(ws, ny)
    decreases |ws|
  {
    if |ws| == 0 then []
    else
      SplittablePrefix(ws, ny, |ws| - 1);
      var p := LowerList(ws[..|ws| - 1], nx, ny, sqrt);
      var w := ws[|ws| - 1];
      p + (if SideOf(w) == Above then [] else [LowerPiece(w, |p|, nx, ny, sqrt)])
  }

  function UpperList(ws: seq<Wire>, nx: real, ny: real, sqrt: real -> real): seq<Wire>
    requires Splittable(ws, ny)
    decreases |ws|
  {
    if |ws| == 0 then []
    else
      SplittablePrefix(ws, ny, |ws| - 1);
      var p := UpperList(ws[..|ws| - 1], nx, ny, sqrt);
      var w := ws[|ws| - 1];
      p + (if SideOf(w) == Below then [] else [UpperPiece(w, |p|, nx, ny, sqrt)])
  }

  /** The y adjustment of one record: both end points moved by
      -yOffset * width and the centre recomputed. */
  function Shift(w: Wire, yOffset: real, width: real): Wire
  {
    var y1 := w.y1 - yOffset * width;
    var y2 := w.y2 - yOffset * width;
    w.(y1 := y1, y2 := y2, cy := 0.5 * (y1 + y2))
  }

  function ShiftAll(ws: seq<Wire>, yOffset: real, width: real): (r: seq<Wire>)
    ensures |r| == |ws|
    ensures forall k :: 0 <= k < |ws| ==> r[k] == Shift(ws[k], yOffset, width)
  {
    seq(|ws|, k requires 0 <= k < |ws| => Shift(ws[k], yOffset, width))
  }

  /** split_wires: the lower and the upper half, or the division by zero a
      crossing wire meets when ny is 0. */
  function Split(ws: seq<Wire>, width: real, nx: real, ny: real, sqrt: real -> real)
    : Result<(seq<Wire>, seq<Wire>)>
  {
    if !Splittable(ws, ny) then Err(ZeroDivisionError)
    else Ok((ShiftAll(LowerList(ws, nx, ny, sqrt), -0.25, width),
             ShiftAll(UpperList(ws, nx, ny, sqrt), 0.25, width)))
  }

  /** The y adjustment loop over one half, in place. */
  method ShiftInPlace(ws: seq<Wire>, yOffset: real, width: real) returns (r: seq<Wire>)
    ensures r == ShiftAll(ws, yOffset, width)
  {
    r := ws;
    var k := 0;
    while k < |r|
      invariant 0 <= k <= |r| == |ws|
      invariant forall m :: 0 <= m < k ==> r[m] == Shift(ws[m], yOffset, width)
      invariant forall m :: k <= m < |r| ==> r[m] == ws[m]
    {
      r := r[k := Shift(r[k], yOffset, width)];
      k := k + 1;
    }
  }

  /** split_wires, with the ich1/ich2 counters and the two appending lists. */
  method SplitWires(ws: seq<Wire>, width: real, nx: real, ny: real, sqrt: real -> real)
    returns (r: Result<(seq<Wire>, seq<Wire>)>)
    ensures r == Split(ws, width, nx, ny, sqrt)
  {
    var ok, lower, upper := CutWires(ws, nx, ny, sqrt);
    if !ok {
      return Err(ZeroDivisionError);
    }
    lower := ShiftInPlace(lower, -0.25, width);
    upper := ShiftInPlace(upper, 0.25, width);
    r := Ok((lower, upper));
  }

  /** The splitting loop: each wire in turn is cut at y = 0, the channel
      counters advancing with each half kept; a wire across y = 0 with a
      horizontal normal stops it with a division by zero. */
  method CutWires(ws: seq<Wire>, nx: real, ny: real, sqrt: real -> real)
    returns (ok: bool, lower: seq<Wire>, upper: seq<Wire>)
    ensures ok == Splittable(ws, ny)
    ensures ok ==> lower == LowerList(ws, nx, ny, sqrt) && upper == UpperList(ws, nx, ny, sqrt)
  {
    lower, upper := [], [];
    var ich1, ich2 := 0, 0;
    var i := 0;
    while i < |ws|
      invariant 0 <= i <= |ws|
      invariant Splittable(ws[..i], ny)
      invariant lower == LowerList(ws[..i], nx, ny, sqrt) && ich1 == |lower|
      invariant upper == UpperList(ws[..i], nx, ny, sqrt) && ich2 == |upper|
    {
      var w := ws[i];
      if SideOf(w) == Across && ny == 0.0 {
        assert !Splittable(ws, ny);
        return false, lower, upper;
      }
      var lo, up := CutStep(ws, i, ich1, ich2, nx, ny, sqrt, lower, upper);
      lower, upper := lower + lo, upper + up;
      ich1, ich2 := ich1 + |lo|, ich2 + |up|;
      i := i + 1;
    }
    assert ws[..i] == ws;
    ok := true;
  }

  /** One pass of the splitting loop: the pieces of wire i extend the lists
      of the wires before it to the lists of the wires up to it. */
  method CutStep(ws: seq<Wire>, i: nat, ich1: int, ich2: int, nx: real, ny: real, sqrt: real -> real,
                 lower: seq<Wire>, upper: seq<Wire>)
    returns (lo: seq<Wire>, up: seq<Wire>)
    requires i < |ws| && Splittable(ws[..i], ny) && (SideOf(ws[i]) == Across ==> ny != 0.0)
    requires lower == LowerList(ws[..i], nx, ny, sqrt) && ich1 == |lower|
    requires upper == UpperList(ws[..i], nx, ny, sqrt) && ich2 == |upper|
    ensures Splittable(ws[..i + 1], ny)
    ensures lower + lo == LowerList(ws[..i + 1], nx, ny, sqrt)
    ensures upper + up == UpperList(ws[..i + 1], nx, ny, sqrt)
  {
    ListsStep(ws, i, nx, ny, sqrt);
    lo, up := SplitOne(ws[i], ich1, ich2, nx, ny, sqrt);
  }

  /** One wire: its record in the list of its half, or, when it crosses
      y = 0, its piece in each list, cut where it crosses. */
  method SplitOne(w: Wire, ich1: int, ich2: int, nx: real, ny: real, sqrt: real -> real)
    returns (lo: seq<Wire>, up: seq<Wire>)
    requires SideOf(w) == Across ==> ny != 0.0
    ensures lo == if SideOf(w) == Above then [] else [LowerPiece(w, ich1, nx, ny, sqrt)]
    ensures up == if SideOf(w) == Below then [] else [UpperPiece(w, ich2, nx, ny, sqrt)]
  {
    var side := SideOf(w);
    if side == Below {
      lo, up := [MakeWire(ich1, Ends(w), w.len)], [];
    } else if side == Above {
      lo, up := [], [MakeWire(ich2, Ends(w), w.len)];
    } else {
      var x := CrossX(w, nx, ny);
      var e1 := LowerEnds(w, x);
      var e2 := UpperEnds(w, x);
      lo, up := [MakeWire(ich1, e1, PieceLength(e1, sqrt))], [MakeWire(ich2, e2, PieceLength(e2, sqrt))];
    }
  }

  /** One more wire extends each list by at most its own piece. */
  lemma ListsStep(ws: seq<Wire>, i: nat, nx: real, ny: real, sqrt: real -> real)
    requires i < |ws| && Splittable(ws[..i], ny)
    requires SideOf(ws[i]) == Across ==> ny != 0.0
    ensures Splittable(ws[..i + 1], ny)
    ensures LowerList(ws[..i + 1], nx, ny, sqrt) == LowerList(ws[..i], nx, ny, sqrt)
      + (if SideOf(ws[i]) == Above then []
         else [LowerPiece(ws[i], |LowerList(ws[..i], nx, ny, sqrt)|, nx, ny, sqrt)])
    ensures UpperList(ws[..i + 1], nx, ny, sqrt) == UpperList(ws[..i], nx, ny, sqrt)
      + (if SideOf(ws[i]) == Below then []
         else [UpperPiece(ws[i], |UpperList(ws[..i], nx, ny, sqrt)|, nx, ny, sqrt)])
  {
    assert ws[..i + 1][..i] == ws[..i];
    assert ws[..i + 1][i] == ws[i];
    if ny == 0.0 {
      var v := ws[..i + 1];
      forall k | 0 <= k < |v|
        ensures SideOf(v[k]) != Across
      {
        if k < i { assert v[k] == ws[..i][k]; }
      }
    }
  }

  /** The number of wires of `ws` on side `s`. */
  function CountSide(ws: seq<Wire>, s: Side): nat
    decreases |ws|
  {
    if |ws| == 0 then 0
    else CountSide(ws[..|ws| - 1], s) + (if SideOf(ws[|ws| - 1]) == s then 1 else 0)
  }

  /** The lower list holds one record per wire not above y = 0 and the upper
      list one per wire not below it, each numbered 0, 1, 2, ... */
  lemma {:induction false} ListsNumbered(ws: seq<Wire>, nx: real, ny: real, sqrt: real -> real)
    requires Splittable(ws, ny)
    ensures var lo := LowerList(ws, nx, ny, sqrt);
      |lo| == |ws| - CountSide(ws, Above) && forall k :: 0 <= k < |lo| ==> lo[k].ch == k
    ensures var up := UpperList(ws, nx, ny, sqrt);
      |up| == |ws| - CountSide(ws, Below) && forall k :: 0 <= k < |up| ==> up[k].ch == k
    decreases |ws|
  {
    if |ws| > 0 {
      SplittablePrefix(ws, ny, |ws| - 1);
      ListsNumbered(ws[..|ws| - 1], nx, ny, sqrt);
    }
  }

  /** Every wire goes to at least one list, and a crossing wire to both:
      the two lists together hold |ws| + (number of crossing wires) records. */
  lemma {:induction false} CountsAddUp(ws: seq<Wire>)
    ensures CountSide(ws, Below) + CountSide(ws, Above) + CountSide(ws, Across) == |ws|
    decreases |ws|
  {
    if |ws| > 0 {
      CountsAddUp(ws[..|ws| - 1]);
    }
  }

  /** No wire touches y = 0 with its first end point while rising above it:
      the one configuration in which the lower piece leaves the lower half. */
  predicate NoRisingTouch(ws: seq<Wire>)
  {
    forall k :: 0 <= k < |ws| ==> !(ws[k].y1 == 0.0 && ws[k].y2 > 0.0)
  }

  lemma PiecesInTheirHalf(w: Wire, i1: int, i2: int, nx: real, ny: real, sqrt: real -> real)
    requires !(w.y1 == 0.0 && w.y2 > 0.0) && (SideOf(w) == Across ==> ny != 0.0)
    ensures SideOf(w) != Above ==>
      var p := LowerPiece(w, i1, nx, ny, sqrt); p.y1 <= 0.0 && p.y2 <= 0.0 && Centred(p)
    ensures SideOf(w) != Below ==>
      var p := UpperPiece(w, i2, nx, ny, sqrt); p.y1 >= 0.0 && p.y2 >= 0.0 && Centred(p)
  {
  }

  /** Before the shift, lower records lie at y <= 0 and upper records at
      y >= 0 (provided no wire rises from y = 0 at its first end point). */
  lemma {:induction false} ListsInTheirHalf(ws: seq<Wire>, nx: real, ny: real, sqrt: real -> real)
    requires Splittable(ws, ny) && NoRisingTouch(ws)
    ensures forall k :: 0 <= k < |LowerList(ws, nx, ny, sqrt)| ==>
      LowerList(ws, nx, ny, sqrt)[k].y1 <= 0.0 && LowerList(ws, nx, ny, sqrt)[k].y2 <= 0.0
    ensures forall k :: 0 <= k < |UpperList(ws, nx, ny, sqrt)| ==>
      UpperList(ws, nx, ny, sqrt)[k].y1 >= 0.0 && UpperList(ws, nx, ny, sqrt)[k].y2 >= 0.0
    decreases |ws|
  {
    if |ws| > 0 {
      SplittablePrefix(ws, ny, |ws| - 1);
      assert NoRisingTouch(ws[..|ws| - 1]) by {
        forall k | 0 <= k < |ws| - 1 ensures ws[..|ws| - 1][k] == ws[k] { }
      }
      ListsInTheirHalf(ws[..|ws| - 1], nx, ny, sqrt);
      var lo := LowerList(ws[..|ws| - 1], nx, ny, sqrt);
      var up := UpperList(ws[..|ws| - 1], nx, ny, sqrt);
      PiecesInTheirHalf(ws[|ws| - 1], |lo|, |up|, nx, ny, sqrt);
    }
  }

  /** split_wires fails, with ZeroDivisionError, exactly when ny is 0 and
      some wire touches or crosses y = 0. */
  lemma SplitFails(ws: seq<Wire>, width: real, nx: real, ny: real, sqrt: real -> real)
    ensures Split(ws, width, nx, ny, sqrt).Err? <==> ny == 0.0 && CountSide(ws, Across) > 0
    ensures Split(ws, width, nx, ny, sqrt).Err? ==> Split(ws, width, nx, ny, sqrt).failure == ZeroDivisionError
  {
    NoCrossingCount(ws);
  }

  /** Otherwise it returns two halves numbered 0, 1, 2, ... holding
      |ws| + (number of crossing wires) records between them; after the
      shift the lower half lies in y <= width/4 and the upper in
      y >= -width/4 (provided no wire rises from y = 0 at its first end
      point), and every record's centre is its midpoint. */
  lemma SplitHalves(ws: seq<Wire>, width: real, nx: real, ny: real, sqrt: real -> real)
    requires NoRisingTouch(ws) && Split(ws, width, nx, ny, sqrt).Ok?
    ensures var lo := Split(ws, width, nx, ny, sqrt).value.0;
      var up := Split(ws, width, nx, ny, sqrt).value.1;
      |lo| + |up| == |ws| + CountSide(ws, Across) &&
      (forall k :: 0 <= k < |lo| ==> lo[k].ch == k && lo[k].y1 <= 0.25 * width && lo[k].y2 <= 0.25 * width
                                     && Centred(lo[k])) &&
      (forall k :: 0 <= k < |up| ==> up[k].ch == k && up[k].y1 >= -0.25 * width && up[k].y2 >= -0.25 * width
                                     && Centred(up[k]))
  {
    CountsAddUp(ws);
    ListsNumbered(ws, nx, ny, sqrt);
    ListsInTheirHalf(ws, nx, ny, sqrt);
    ListsCentred(ws, nx, ny, sqrt);
    var lo0 := LowerList(ws, nx, ny, sqrt);
    var up0 := UpperList(ws, nx, ny, sqrt);
    var lo := ShiftAll(lo0, -0.25, width);
    var up := ShiftAll(up0, 0.25, width);
    assert Split(ws, width, nx, ny, sqrt).value == (lo, up);
    forall k | 0 <= k < |lo|
      ensures lo[k].ch == k && lo[k].y1 <= 0.25 * width && lo[k].y2 <= 0.25 * width && Centred(lo[k])
    {
      ShiftKeepsCentre(lo0[k], -0.25, width);
    }
    forall k | 0 <= k < |up|
      ensures up[k].ch == k && up[k].y1 >= -0.25 * width && up[k].y2 >= -0.25 * width && Centred(up[k])
    {
      ShiftKeepsCentre(up0[k], 0.25, width);
    }
  }

  lemma ShiftKeepsCentre(w: Wire, yOffset: real, width: real)
    requires w.cx == (w.x1 + w.x2) / 2.0
    ensures Centred(Shift(w, yOffset, width))
  {
  }

  lemma {:induction false} ListsCentred(ws: seq<Wire>, nx: real, ny: real, sqrt: real -> real)
    requires Splittable(ws, ny)
    ensures forall k :: 0 <= k < |LowerList(ws, nx, ny, sqrt)| ==> Centred(LowerList(ws, nx, ny, sqrt)[k])
    ensures forall k :: 0 <= k < |UpperList(ws, nx, ny, sqrt)| ==> Centred(UpperList(ws, nx, ny, sqrt)[k])
    decreases |ws|
  {
    if |ws| > 0 {
      SplittablePrefix(ws, ny, |ws| - 1);
      ListsCentred(ws[..|ws| - 1], nx, ny, sqrt);
    }
  }

  /** No wire crosses exactly when the crossing count is zero. */
  lemma {:induction false} NoCrossingCount(ws: seq<Wire>)
    ensures (forall k :: 0 <= k < |ws| ==> SideOf(ws[k]) != Across) <==> CountSide(ws, Across) == 0
    decreases |ws|
  {
    if |ws| > 0 {
      var p := ws[..|ws| - 1];
      NoCrossingCount(p);
      assert forall k :: 0 <= k < |p| ==> p[k] == ws[k];
    }
  }

  // ---------------------------------------------------------------------
  // Z wires of construct_top_crp

  /** One collection wire: its id and its z position in the plane. */
  datatype ZWire = ZWire(wid: int, zpos: real)

  /** zdelta, the room the collection wires leave in the PCB length, clamped to 0. */
  function ZDelta(lengthPCB: real, pitchZ: real, nch: nat): (d: real)
    ensures d >= 0.0
    ensures d == 0.0 || d == lengthPCB - pitchZ * (nch as real)
    ensures lengthPCB - pitchZ * (nch as real) >= 0.0 ==> d == lengthPCB - pitchZ * (nch as real)
  {
    var zdelta := lengthPCB - pitchZ * (nch as real);
    if zdelta < 0.0 then 0.0 else zdelta
  }

  /** zoffset: quadrants 0 and 1 are shifted by zdelta, quadrants 2 and 3 are not. */
  function ZOffset(quad: nat, lengthPCB: real, pitchZ: real, nch: nat): real
  {
    if quad <= 1 then ZDelta(lengthPCB, pitchZ, nch) else 0.0
  }

  function ZPos(zoffset: real, pitchZ: real, lengthPCB: real, i: nat): real
  {
    zoffset + ((i as real) + 0.5) * pitchZ - 0.5 * lengthPCB
  }

  /** The guard as written: the absolute value of a difference compared with
      0, which no input makes true. */
  predicate ZGuardAsWritten(lengthPCB: real, zpos: real)
  {
    Abs(0.5 * lengthPCB - Abs(zpos)) < 0.0
  }

  /** The guard as evidently intended: the wire lies outside the half length. */
  predicate PlaneTooSmall(lengthPCB: real, zpos: real)
  {
    0.5 * lengthPCB - Abs(zpos) < 0.0
  }

  function ZMessage(i: nat): string
  {
    "Cannot place wire " + NatToString(i) + " in view Z, plane too small"
  }

  /** The Z wires i, i+1, ..., nch-1, or the error for the first of them
      outside the plane. */
  function ZFrom(quad: nat, nch: nat, zoffset: real, lengthPCB: real, pitchZ: real, i: nat)
    : Result<seq<ZWire>>
    decreases nch - i
  {
    if i >= nch then Ok([])
    else
      var z := ZPos(zoffset, pitchZ, lengthPCB, i);
      if PlaneTooSmall(lengthPCB, z) then Err(ValueError(ZMessage(i)))
      else Prepend([ZWire(i + quad * nch, z)], ZFrom(quad, nch, zoffset, lengthPCB, pitchZ, i + 1))
  }

  /** The Z wires of quadrant `quad`: nch = nChans['Col'] // 2 of them. */
  function ZWiresSpec(quad: nat, nChansCol: nat, lengthPCB: real, pitchZ: real): Result<seq<ZWire>>
  {
    var nch := nChansCol / 2;
    ZFrom(quad, nch, ZOffset(quad, lengthPCB, pitchZ, nch), lengthPCB, pitchZ, 0)
  }

  /** The Z-wire loop of construct_top_crp for one quadrant, with the plane
      check as evidently intended. */
  method ZWires(quad: nat, nChansCol: nat, lengthPCB: real, pitchZ: real)
    returns (r: Result<seq<ZWire>>)
    ensures r == ZWiresSpec(quad, nChansCol, lengthPCB, pitchZ)
  {
    var nch := nChansCol / 2;
    var zdelta := lengthPCB - pitchZ * (nch as real);
    if zdelta < 0.0 {
      zdelta := 0.0;
    }
    var zoffset := if quad <= 1 then zdelta else 0.0;
    assert zoffset == ZOffset(quad, lengthPCB, pitchZ, nch);
    var placed: seq<ZWire> := [];
    PrependEmpty(ZFrom(quad, nch, zoffset, lengthPCB, pitchZ, 0));
    var i := 0;
    while i < nch
      invariant 0 <= i <= nch
      invariant ZWiresSpec(quad, nChansCol, lengthPCB, pitchZ) ==
        Prepend(placed, ZFrom(quad, nch, zoffset, lengthPCB, pitchZ, i))
    {
      var zpos := zoffset + ((i as real) + 0.5) * pitchZ - 0.5 * lengthPCB;
      if 0.5 * lengthPCB - Abs(zpos) < 0.0 {
        return Err(ValueError(ZMessage(i)));
      }
      var wid := i + quad * nch;
      PrependAssoc(placed, [ZWire(wid, zpos)], ZFrom(quad, nch, zoffset, lengthPCB, pitchZ, i + 1));
      placed := placed + [ZWire(wid, zpos)];
      i := i + 1;
    }
    assert placed + [] == placed;
    r := Ok(placed);
  }

  /** The guard as written never fires. */
  lemma ZGuardAsWrittenNeverFires(lengthPCB: real, zpos: real)
    ensures !ZGuardAsWritten(lengthPCB, zpos)
  {
  }

  /** With 12 wires of pitch 1 in a plane of length 10, zdelta is clamped to
      0 and the last wire sits at z = 6.5, outside the half length 5: the
      intended check rejects it, the written one lets it through. */
  lemma ZGuardCounterexample()
    ensures ZOffset(2, 10.0, 1.0, 12) == 0.0
    ensures ZPos(0.0, 1.0, 10.0, 11) == 6.5
    ensures PlaneTooSmall(10.0, 6.5) && !ZGuardAsWritten(10.0, 6.5)
  {
  }

  /** When the wires fit (nch * pitch <= length, pitch >= 0) the loop always
      succeeds: nch wires numbered i + quad * nch, each inside the plane, each
      one pitch after the previous. */
  lemma ZWiresFit(quad: nat, nChansCol: nat, lengthPCB: real, pitchZ: real)
    requires pitchZ >= 0.0 && pitchZ * ((nChansCol / 2) as real) <= lengthPCB
    ensures var nch := nChansCol / 2;
      var r := ZWiresSpec(quad, nChansCol, lengthPCB, pitchZ);
      r.Ok? && |r.value| == nch &&
      forall i :: 0 <= i < nch ==>
        r.value[i].wid == i + quad * nch &&
        r.value[i].zpos == ZPos(ZOffset(quad, lengthPCB, pitchZ, nch), pitchZ, lengthPCB, i) &&
        Abs(r.value[i].zpos) <= 0.5 * lengthPCB
  {
    var nch := nChansCol / 2;
    var zo := ZOffset(quad, lengthPCB, pitchZ, nch);
    forall i | 0 <= i < nch
      ensures !PlaneTooSmall(lengthPCB, ZPos(zo, pitchZ, lengthPCB, i))
    {
      ZInside(quad, nch, lengthPCB, pitchZ, i);
    }
    ZFromFits(quad, nch, zo, lengthPCB, pitchZ, 0);
  }

  lemma ZInside(quad: nat, nch: nat, lengthPCB: real, pitchZ: real, i: nat)
    requires pitchZ >= 0.0 && pitchZ * (nch as real) <= lengthPCB && i < nch
    ensures var z := ZPos(ZOffset(quad, lengthPCB, pitchZ, nch), pitchZ, lengthPCB, i);
      -0.5 * lengthPCB <= z <= 0.5 * lengthPCB
  {
    var zo := ZOffset(quad, lengthPCB, pitchZ, nch);
    var t := (i as real) + 0.5;
    assert 0.5 <= t <= (nch as real) - 0.5;
    assert 0.0 <= t * pitchZ;
    MulMono(t, (nch as real) - 0.5, pitchZ);
    assert t * pitchZ <= pitchZ * (nch as real) - 0.5 * pitchZ;
    assert 0.0 <= zo <= lengthPCB - pitchZ * (nch as real);
  }

  lemma MulMono(a: real, b: real, c: real)
    requires a <= b && c >= 0.0
    ensures a * c <= b * c
  {
  }

  lemma {:induction false} ZFromFits(quad: nat, nch: nat, zo: real, lengthPCB: real, pitchZ: real, i: nat)
    requires i <= nch
    requires forall j :: i <= j < nch ==> !PlaneTooSmall(lengthPCB, ZPos(zo, pitchZ, lengthPCB, j))
    ensures var r := ZFrom(quad, nch, zo, lengthPCB, pitchZ, i);
      r.Ok? && |r.value| == nch - i &&
      forall k :: 0 <= k < nch - i ==>
        r.value[k] == ZWire(i + k + quad * nch, ZPos(zo, pitchZ, lengthPCB, i + k))
    decreases nch - i
  {
    if i < nch {
      ZFromFits(quad, nch, zo, lengthPCB, pitchZ, i + 1);
    }
  }

  // ---------------------------------------------------------------------
  // place_tpcs

  /** The dimensions and counts place_tpcs reads. */
  datatype CrpParams = CrpParams(
    argonX: real, argonY: real, argonZ: real,
    heightGaseousAr: real, upperXLArBuffer: real,
    driftTPCActive: real, readoutPlane: real, heightCathode: real,
    widthCRP: real, lengthCRP: real, zLArBuffer: real, yLArBuffer: real,
    borderCRP: real, gapCRU: real,
    nCRMz: nat, nCRMx: nat)

  /** x of the top TPCs: below the gas and the upper buffer. */
  function TopX(p: CrpParams): real
  {
    p.argonX / 2.0 - p.heightGaseousAr - p.upperXLArBuffer - 0.5 * (p.driftTPCActive + p.readoutPlane)
  }

  /** x of the bottom TPCs: one drift, the cathode and a readout plane lower. */
  function BottomX(p: CrpParams): real
  {
    TopX(p) - p.driftTPCActive - p.heightCathode - p.readoutPlane
  }

  /** The quadrant of CRM (ii, jj) from the two parities. */
  function Quad(ii: nat, jj: nat): (q: nat)
    ensures q < 4 && q == 2 * (ii % 2) + jj % 2
  {
    if ii % 2 == 0 then (if jj % 2 == 0 then 0 else 1)
    else (if jj % 2 == 0 then 2 else 3)
  }

  /** The CRP centre in z for row ii: one CRP length further every second row. */
  function RowZ(p: CrpParams, ii: nat): real
  {
    Along(-0.5 * p.argonZ + p.zLArBuffer + 0.5 * p.lengthCRP, (ii / 2) as real, p.lengthCRP)
  }

  /** The CRP centre in y for column jj: one CRP width further every second column. */
  function ColY(p: CrpParams, jj: nat): real
  {
    Along(-0.5 * p.argonY + p.yLArBuffer + 0.5 * p.widthCRP, (jj / 2) as real, p.widthCRP)
  }

  /** The (y, z) of the TPC of quadrant Quad(ii, jj) inside the CRP centred at (posY, posZ). */
  function QuadYZ(p: CrpParams, ii: nat, jj: nat, posY: real, posZ: real): (real, real)
  {
    if ii % 2 == 0 then
      if jj % 2 == 0 then
        (posY - p.widthCRP / 4.0 + p.borderCRP / 2.0, posZ - p.lengthCRP / 4.0 + (p.borderCRP / 2.0 - p.gapCRU / 4.0))
      else
        (posY + p.widthCRP / 4.0 + -p.borderCRP / 2.0, posZ - p.lengthCRP / 4.0 + (p.borderCRP / 2.0 - p.gapCRU / 4.0))
    else
      if jj % 2 == 0 then
        (posY - p.widthCRP / 4.0 + p.borderCRP / 2.0, posZ + p.lengthCRP / 4.0 + -(p.borderCRP / 2.0 - p.gapCRU / 4.0))
      else
        (posY + p.widthCRP / 4.0 + -p.borderCRP / 2.0, posZ + p.lengthCRP / 4.0 + -(p.borderCRP / 2.0 - p.gapCRU / 4.0))
  }

  /** The number of CRM (ii, jj): the placements are counted row by row. */
  function TpcIndex(p: CrpParams, ii: nat, jj: nat): nat
  {
    ii * p.nCRMx + jj
  }

  /** The loop body's top placement for CRM (ii, jj), number idx, at height
      posX in the CRP centred at (posY, posZ). */
  function TopPlacement(ii: nat, jj: nat, idx: nat, p: CrpParams, posX: real, posY: real, posZ: real): Placement
  {
    var yz := QuadYZ(p, ii, jj, posY, posZ);
    Placement("placeTopTPC_" + NatToString(idx), "volTPC_" + NatToString(Quad(ii, jj)),
              Vec3(posX, yz.0, yz.1), NoRot)
  }

  /** The loop body's bottom placement: the same volume turned about y. */
  function BotPlacement(ii: nat, jj: nat, idx: nat, p: CrpParams, posXBot: real, posY: real, posZ: real): Placement
  {
    var yz := QuadYZ(p, ii, jj, posY, posZ);
    Placement("placeBotTPC_" + NatToString(idx), "volTPC_" + NatToString(Quad(ii, jj)),
              Vec3(posXBot, yz.0, yz.1), "rPlus180AboutY")
  }

  /** The top placement of CRM (ii, jj). */
  function TopTpc(p: CrpParams, ii: nat, jj: nat): Placement
  {
    TopPlacement(ii, jj, TpcIndex(p, ii, jj), p, TopX(p), ColY(p, jj), RowZ(p, ii))
  }

  /** The bottom placement of CRM (ii, jj). */
  function BotTpc(p: CrpParams, ii: nat, jj: nat): Placement
  {
    BotPlacement(ii, jj, TpcIndex(p, ii, jj), p, BottomX(p), ColY(p, jj), RowZ(p, ii))
  }

  /** The top and the bottom placement of each CRM, as functions of (ii, jj). */
  function TopOf(p: CrpParams): (nat, nat) -> Placement
  {
    (ii: nat, jj: nat) => TopTpc(p, ii, jj)
  }

  function BotOf(p: CrpParams): (nat, nat) -> Placement
  {
    (ii: nat, jj: nat) => BotTpc(p, ii, jj)
  }

  /** The placements of row ii, columns 0 .. n-1: top and bottom TPC of each CRM in turn. */
  function RowPairs(p: CrpParams, ii: nat, n: nat): seq<Placement>
  {
    PairRow(TopOf(p), BotOf(p), ii, n)
  }

  lemma RowPairsStep(p: CrpParams, ii: nat, jj: nat)
    ensures RowPairs(p, ii, jj + 1) == RowPairs(p, ii, jj) + [TopTpc(p, ii, jj), BotTpc(p, ii, jj)]
  {
  }

  /** The placements of rows 0 .. m-1. */
  function GridPairs(p: CrpParams, m: nat): seq<Placement>
  {
    PairGrid(TopOf(p), BotOf(p), m, p.nCRMx)
  }

  lemma AlongStep(o: real, t: real, d: real)
    ensures Along(o, t + 1.0, d) == Along(o, t, d) + d
  {
  }

  /** Advancing the running z position at an even row gives the next row's centre. */
  lemma RowZStep(p: CrpParams, ii: nat)
    requires ii > 0
    ensures RowZ(p, ii) == RowZ(p, ii - 1) + (if ii % 2 == 0 then p.lengthCRP else 0.0)
  {
    if ii % 2 == 0 {
      assert (ii / 2) as real == ((ii - 1) / 2) as real + 1.0;
      AlongStep(-0.5 * p.argonZ + p.zLArBuffer + 0.5 * p.lengthCRP, ((ii - 1) / 2) as real, p.lengthCRP);
    } else {
      assert ii / 2 == (ii - 1) / 2;
    }
  }

  lemma ColYStep(p: CrpParams, jj: nat)
    requires jj > 0
    ensures ColY(p, jj) == ColY(p, jj - 1) + (if jj % 2 == 0 then p.widthCRP else 0.0)
  {
    if jj % 2 == 0 {
      assert (jj / 2) as real == ((jj - 1) / 2) as real + 1.0;
      AlongStep(-0.5 * p.argonY + p.yLArBuffer + 0.5 * p.widthCRP, ((jj - 1) / 2) as real, p.widthCRP);
    } else {
      assert jj / 2 == (jj - 1) / 2;
    }
  }

  lemma IdxStep(ii: nat, n: nat)
    ensures (ii + 1) * n == ii * n + n
  {
  }

  /** place_tpcs: the loop over CRM rows with the running position posZ and
      the counter idx; the loop over the columns of a row is PlaceTpcRow. */
  method PlaceTpcs(p: CrpParams) returns (placed: seq<Placement>)
    ensures placed == GridPairs(p, p.nCRMz)
  {
    var posX := p.argonX / 2.0 - p.heightGaseousAr - p.upperXLArBuffer - 0.5 * (p.driftTPCActive + p.readoutPlane);
    var posXBot := posX - p.driftTPCActive - p.heightCathode - p.readoutPlane;
    var crpZ := p.lengthCRP;
    var posZ := -0.5 * p.argonZ + p.zLArBuffer + 0.5 * crpZ;
    placed := [];
    var idx := 0;
    var ii := 0;
    while ii < p.nCRMz
      invariant 0 <= ii <= p.nCRMz
      invariant idx == ii * p.nCRMx
      invariant posZ == RowZ(p, if ii == 0 then 0 else ii - 1)
      invariant placed == GridPairs(p, ii)
    {
      if ii % 2 == 0 && ii > 0 {
        posZ := posZ + crpZ;
      }
      if ii > 0 { RowZStep(p, ii); }
      var row;
      row, idx := PlaceTpcRow(p, ii, idx, posX, posXBot, posZ);
      placed := placed + row;
      IdxStep(ii, p.nCRMx);
      ii := ii + 1;
    }
  }

  /** The inner loop of place_tpcs for row ii: the running position posY,
      the quadrant and offsets of each CRM and its two placements. */
  method PlaceTpcRow(p: CrpParams, ii: nat, idx0: nat, posX: real, posXBot: real, posZ: real)
    returns (row: seq<Placement>, idx: nat)
    requires idx0 == ii * p.nCRMx && posX == TopX(p) && posXBot == BottomX(p) && posZ == RowZ(p, ii)
    ensures row == RowPairs(p, ii, p.nCRMx) && idx == idx0 + p.nCRMx
  {
    var crpY := p.widthCRP;
    var posY := -0.5 * p.argonY + p.yLArBuffer + 0.5 * crpY;
    row := [];
    idx := idx0;
    var jj := 0;
    while jj < p.nCRMx
      invariant 0 <= jj <= p.nCRMx
      invariant idx == ii * p.nCRMx + jj
      invariant posY == ColY(p, if jj == 0 then 0 else jj - 1)
      invariant row == RowPairs(p, ii, jj)
    {
      if jj % 2 == 0 && jj > 0 {
        posY := posY + crpY;
      }
      if jj > 0 { ColYStep(p, jj); }
      var top := TopPlacement(ii, jj, idx, p, posX, posY, posZ);
      var bot := BotPlacement(ii, jj, idx, p, posXBot, posY, posZ);
      assert idx == TpcIndex(p, ii, jj) && posY == ColY(p, jj);
      assert top == TopTpc(p, ii, jj) && bot == BotTpc(p, ii, jj);
      RowPairsStep(p, ii, jj);
      row := row + [top, bot];
      idx := idx + 1;
      jj := jj + 1;
    }
  }

  /** place_tpcs makes exactly two placements per CRM: 2 * nCRM_z * nCRM_x in all. */
  lemma GridPairsLength(p: CrpParams)
    ensures |GridPairs(p, p.nCRMz)| == 2 * (p.nCRMz * p.nCRMx)
  {
    PairGridLength(TopOf(p), BotOf(p), p.nCRMz, p.nCRMx);
  }

  /** CRM (ii, jj) of number idx = ii * nCRM_x + jj has its top TPC at
      position 2 * idx of place_tpcs' placements and its bottom TPC right
      after it. */
  lemma TpcAt(p: CrpParams, ii: nat, jj: nat)
    requires ii < p.nCRMz && jj < p.nCRMx
    ensures 2 * TpcIndex(p, ii, jj) + 1 < |GridPairs(p, p.nCRMz)|
    ensures GridPairs(p, p.nCRMz)[2 * TpcIndex(p, ii, jj)] == TopTpc(p, ii, jj)
    ensures GridPairs(p, p.nCRMz)[2 * TpcIndex(p, ii, jj) + 1] == BotTpc(p, ii, jj)
  {
    PairGridAt(TopOf(p), BotOf(p), p.nCRMz, p.nCRMx, ii, jj);
  }

  /** The two placements of a CRM differ only in name, in x (by one drift
      length, the cathode and a readout plane) and in the rotation of the
      bottom one; their volume is that of quadrant 2 * (ii % 2) + jj % 2. */
  lemma TpcPairShape(p: CrpParams, ii: nat, jj: nat)
    ensures var t, b := TopTpc(p, ii, jj), BotTpc(p, ii, jj);
      t.volume == b.volume == "volTPC_" + NatToString(2 * (ii % 2) + jj % 2) &&
      t.pos.y == b.pos.y && t.pos.z == b.pos.z &&
      t.pos.x - b.pos.x == p.driftTPCActive + p.heightCathode + p.readoutPlane &&
      t.rot == NoRot && b.rot == "rPlus180AboutY"
  {
  }
}
