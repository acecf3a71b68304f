/** The PMT builder of ProtoDUNE-VD: the 24 PMT positions its configure step
    stores, and the placements place_pmts makes from them, writing the
    common x into the stored position of every PMT that is not rotated. */
module Pmts {
  import opened Wrappers
  import opened Strings
  import opened Placements

  /** The entries of the PMT parameter dictionary the builder reads; None is
      a key the dictionary does not have. */
  datatype PmtParams = PmtParams(
    yPositions: Option<seq<real>>,   // pmt_y_positions
    zPositions: Option<seq<real>>,   // pmt_z_positions
    hTop: Option<real>,              // horizontal_pmt_pos_top
    hBot: Option<real>,              // horizontal_pmt_pos_bot
    hZ: Option<real>,                // horizontal_pmt_z
    hY: Option<real>,                // horizontal_pmt_y
    leftRotated: Option<seq<int>>,   // pmt_left_rotated
    rightRotated: Option<seq<int>>,  // pmt_right_rotated
    tpb: Option<seq<int>>,           // pmt_TPB
    posX: Option<real>)              // pmt_pos_x

  /** The builder's attributes: `params` and `pmt_positions` are None until
      first assigned, `configured` is whether `_configured` is set. */
  datatype PmtState = PmtState(params: Option<PmtParams>, positions: Option<seq<Vec3>>, configured: bool)

  /** `d[key]` for an entry that may be missing. */
  function Read<T>(v: Option<T>, key: string): (r: Result<T>)
    ensures v.None? ==> r == Err(KeyError(key))
    ensures v.Some? ==> r == Ok(v.value)
  {
    if v.None? then Err(KeyError(key)) else Ok(v.value)
  }

  /** make_pos: a coordinate not given is 0 cm. */
  function MakePos(x: Option<real>, y: Option<real>, z: Option<real>): Vec3
  {
    Vec3(if x.Some? then x.value else 0.0, if y.Some? then y.value else 0.0, if z.Some? then z.value else 0.0)
  }

  /** The first extend: the ten vertical PMTs at the far end. */
  function Front(y: seq<real>, z: seq<real>): seq<Vec3>
    requires |y| >= 5 && |z| >= 6
  {
    [MakePos(None, Some(y[4]), Some(z[4])), MakePos(None, Some(y[4]), Some(z[5])),
     MakePos(None, Some(y[0]), Some(z[5])), MakePos(None, Some(y[0]), Some(z[4])),
     MakePos(None, Some(y[1]), Some(z[1])), MakePos(None, Some(y[2]), Some(z[1])),
     MakePos(None, Some(y[3]), Some(z[1])), MakePos(None, Some(y[1]), Some(z[0])),
     MakePos(None, Some(y[2]), Some(z[0])), MakePos(None, Some(y[3]), Some(z[0]))]
  }

  /** The four horizontal PMTs at z = `hz`: top and bottom x at y = hy, then
      at y = -hy. */
  function Horizontal(htop: real, hbot: real, hz: real, hy: real): seq<Vec3>
  {
    [MakePos(Some(htop), Some(hy), Some(hz)), MakePos(Some(hbot), Some(hy), Some(hz)),
     MakePos(Some(htop), Some(-hy), Some(hz)), MakePos(Some(hbot), Some(-hy), Some(hz))]
  }

  /** The second extend: four horizontal PMTs, then six vertical ones. */
  function Middle(y: seq<real>, z: seq<real>, htop: real, hbot: real, hz: real, hy: real): seq<Vec3>
    requires |y| >= 5 && |z| >= 6
  {
    Horizontal(htop, hbot, hz, hy)
    + [MakePos(None, Some(y[1]), Some(z[2])), MakePos(None, Some(y[2]), Some(z[2])),
       MakePos(None, Some(y[3]), Some(z[2])), MakePos(None, Some(y[1]), Some(z[3])),
       MakePos(None, Some(y[2]), Some(z[3])), MakePos(None, Some(y[3]), Some(z[3]))]
  }

  /** generate_pmt_positions: the list is reset, then extended three times;
      a missing attribute or key, or a position list too short for the
      indices used, stops it with what was appended so far. */
  function GenerateOutcome(s: PmtState): (Result<()>, PmtState)
  {
    var s0 := s.(positions := Some([]));
    if s.params.None? then (Err(AttributeError("params")), s0)
    else
      var p := s.params.value;
      match Read(p.yPositions, "pmt_y_positions")
      case Err(f) => (Err(f), s0)
      case Ok(y) =>
        match Read(p.zPositions, "pmt_z_positions")
        case Err(f) => (Err(f), s0)
        case Ok(z) =>
          if |y| < 5 || |z| < 6 then (Err(IndexError), s0)
          else
            var s1 := s.(positions := Some(Front(y, z)));
            match HorizontalReads(p)
            case Err(f) => (Err(f), s1)
            case Ok(h) =>
              var (htop, hbot, hz, hy) := h;
              (Ok(()), s.(positions := Some(Front(y, z) + Middle(y, z, htop, hbot, hz, hy) + Horizontal(htop, hbot, -hz, hy))))
  }

  /** The four horizontal entries, read in the order the source reads them. */
  function HorizontalReads(p: PmtParams): (r: Result<(real, real, real, real)>)
    ensures r.Ok? <==> p.hTop.Some? && p.hBot.Some? && p.hZ.Some? && p.hY.Some?
    ensures r.Ok? ==> r.value == (p.hTop.value, p.hBot.value, p.hZ.value, p.hY.value)
    ensures p.hTop.None? ==> r == Err(KeyError("horizontal_pmt_pos_top"))
  {
    var htop :- Read(p.hTop, "horizontal_pmt_pos_top");
    var hbot :- Read(p.hBot, "horizontal_pmt_pos_bot");
    var hz :- Read(p.hZ, "horizontal_pmt_z");
    var hy :- Read(p.hY, "horizontal_pmt_y");
    Ok((htop, hbot, hz, hy))
  }

  /** configure: a second call returns at once; a truthy dictionary (Some)
      replaces the stored one; the positions are generated and, only when
      that succeeds, the builder is marked configured. */
  function ConfigureOutcome(s: PmtState, pp: Option<PmtParams>): (Result<()>, PmtState)
  {
    if s.configured then (Ok(()), s)
    else
      var s1 := if pp.Some? then s.(params := pp) else s;
      var (r, s2) := GenerateOutcome(s1);
      if r.Err? then (r, s2) else (Ok(()), s2.(configured := true))
  }

  // ---------------------------------------------------------------------------
  // place_pmts

  const LeftRotation: string := "rPlus180AboutX"
  const RightRotation: string := "rIdentity"
  const DefaultRotation: string := "rMinus90AboutY"
  const Coated: string := "volPMT_coated"
  const Foil: string := "volPMT_foil"

  /** One pass of place_pmts for PMT k = i + 1 at stored position `pos`: the
      position it stores back and the placement it appends. */
  function PlaceStep(p: Option<PmtParams>, pos: Vec3, i: nat): Result<(Vec3, Placement)>
  {
    if p.None? then Err(AttributeError("params"))
    else
      var k := i + 1;
      var left :- Read(p.value.leftRotated, "pmt_left_rotated");
      var rr :- if k in left then Ok(LeftRotation)
                else
                  var right :- Read(p.value.rightRotated, "pmt_right_rotated");
                  Ok(if k in right then RightRotation else DefaultRotation);
      var tpb :- Read(p.value.tpb, "pmt_TPB");
      var vol := if k in tpb then Coated else Foil;
      if rr != DefaultRotation then
        Ok((pos, Placement("placePMT" + NatToString(i), vol, pos, rr)))
      else
        var x :- Read(p.value.posX, "pmt_pos_x");
        var q := pos.(x := x);
        Ok((q, Placement("placePMT" + NatToString(i), vol, q, rr)))
  }

  /** One pass of place_pmts as a function of the position and the index. */
  function PlaceStepFn(p: Option<PmtParams>): (Vec3, nat) -> Result<(Vec3, Placement)>
  {
    (pos: Vec3, i: nat) => PlaceStep(p, pos, i)
  }

  /** The first n passes of a loop over the stored positions `ps`, pass i
      rewriting position i and appending one record: the records appended
      and the positions after them; a failing pass stops the loop, keeping
      the positions written before it. */
  function Passes<T>(step: (Vec3, nat) -> Result<(Vec3, T)>, ps: seq<Vec3>, n: nat): (o: (Result<seq<T>>, seq<Vec3>))
    requires n <= |ps|
    ensures |o.1| == |ps|
    ensures forall j :: n <= j < |ps| ==> o.1[j] == ps[j]
    ensures o.0.Ok? ==> |o.0.value| == n
  {
    if n == 0 then (Ok([]), ps)
    else
      var (r, qs) := Passes(step, ps, n - 1);
      if r.Err? then (r, qs)
      else
        match step(qs[n - 1], n - 1)
        case Err(f) => (Err(f), qs)
        case Ok(st) => (Ok(r.value + [st.1]), qs[n - 1 := st.0])
  }

  /** place_pmts: one placement per stored position, in order. */
  function PlaceOutcome(s: PmtState): (Result<seq<Placement>>, PmtState)
  {
    if s.positions.None? then (Err(AttributeError("pmt_positions")), s)
    else
      var (r, qs) := Passes(PlaceStepFn(s.params), s.positions.value, |s.positions.value|);
      (r, s.(positions := Some(qs)))
  }

  // ---------------------------------------------------------------------------
  // Properties of the positions

  /** Configured positions: exactly 24. */
  lemma GeneratesTwentyFour(s: PmtState)
    requires GenerateOutcome(s).0.Ok?
    ensures GenerateOutcome(s).1.positions.Some? && |GenerateOutcome(s).1.positions.value| == 24
  {
  }

  /** The PMTs given no x (1-10 and 15-20, indices 0-9 and 14-19) stand at
      x = 0 cm; the others (11-14, 21-24) at the top or bottom x. */
  lemma VerticalAtZeroX(s: PmtState, k: nat)
    requires GenerateOutcome(s).0.Ok? && k < 24
    ensures var ps := GenerateOutcome(s).1.positions.value;
            var p := s.params.value;
            |ps| == 24
            && ((k < 10 || 14 <= k < 20) ==> ps[k].x == 0.0)
            && (!(k < 10 || 14 <= k < 20) ==> ps[k].x == (if k % 2 == 0 then p.hTop.value else p.hBot.value))
  {
    var p := s.params.value;
    var y, z := p.yPositions.value, p.zPositions.value;
    var h := Horizontal(p.hTop.value, p.hBot.value, p.hZ.value, p.hY.value);
    var ps := Front(y, z) + Middle(y, z, p.hTop.value, p.hBot.value, p.hZ.value, p.hY.value)
              + Horizontal(p.hTop.value, p.hBot.value, -p.hZ.value, p.hY.value);
    assert GenerateOutcome(s).1.positions.value == ps;
  }

  /** PMTs 21-24 are PMTs 11-14 reflected in z = 0. */
  lemma HorizontalMirrored(s: PmtState, j: nat)
    requires GenerateOutcome(s).0.Ok? && j < 4
    ensures var ps := GenerateOutcome(s).1.positions.value;
            |ps| == 24 && ps[20 + j] == ps[10 + j].(z := -ps[10 + j].z)
  {
    var p := s.params.value;
    var y, z := p.yPositions.value, p.zPositions.value;
    var ps := Front(y, z) + Middle(y, z, p.hTop.value, p.hBot.value, p.hZ.value, p.hY.value)
              + Horizontal(p.hTop.value, p.hBot.value, -p.hZ.value, p.hY.value);
    assert GenerateOutcome(s).1.positions.value == ps;
  }

  /** Position lists too short for the indices 4 (y) and 5 (z) stop the
      generation with an IndexError and an empty list. */
  lemma ShortListsFail(s: PmtState)
    requires s.params.Some? && s.params.value.yPositions.Some? && s.params.value.zPositions.Some?
    requires |s.params.value.yPositions.value| < 5 || |s.params.value.zPositions.value| < 6
    ensures GenerateOutcome(s) == (Err(IndexError), s.(positions := Some([])))
  {
  }

  /** A second configure changes nothing. */
  lemma ConfigureOnce(s: PmtState, pp: Option<PmtParams>, pp2: Option<PmtParams>)
    requires ConfigureOutcome(s, pp).0.Ok?
    ensures var t := ConfigureOutcome(s, pp).1; t.configured && ConfigureOutcome(t, pp2) == (Ok(()), t)
  {
  }

  // ---------------------------------------------------------------------------
  // Properties of the placements

  /** The rotation place_pmts gives PMT k. */
  function RotationOf(p: PmtParams, k: int): string
  {
    if p.leftRotated.Some? && k in p.leftRotated.value then LeftRotation
    else if p.rightRotated.Some? && k in p.rightRotated.value then RightRotation
    else DefaultRotation
  }

  /** A successful pass: the rotation by the left/right lists, the coated
      volume exactly for PMTs in pmt_TPB, and the position as stored for a
      rotated PMT and with x = pmt_pos_x otherwise; the stored position
      becomes the placed one. */
  lemma StepRules(p: Option<PmtParams>, pos: Vec3, i: nat)
    requires PlaceStep(p, pos, i).Ok?
    ensures var (q, pl) := PlaceStep(p, pos, i).value;
            p.Some? && p.value.tpb.Some? && pl.name == "placePMT" + NatToString(i)
            && pl.rot == RotationOf(p.value, i + 1)
            && (pl.volume == Coated <==> i + 1 in p.value.tpb.value)
            && pl.volume in {Coated, Foil}
            && q == pl.pos
            && (pl.rot != DefaultRotation ==> q == pos)
            && (pl.rot == DefaultRotation ==> p.value.posX.Some? && q == pos.(x := p.value.posX.value))
  {
  }

  /** Every pass rewrites its position to one the next pass keeps: placing
      from the written position gives the same pass. */
  lemma StepSettles(p: Option<PmtParams>, pos: Vec3, i: nat)
    requires PlaceStep(p, pos, i).Ok?
    ensures PlaceStep(p, PlaceStep(p, pos, i).value.0, i) == PlaceStep(p, pos, i)
  {
  }

  /** A pass that, run again on the position it wrote, does the same. */
  ghost predicate Settles<T>(step: (Vec3, nat) -> Result<(Vec3, T)>)
  {
    forall pos, i :: step(pos, i).Ok? ==> step(step(pos, i).value.0, i) == step(pos, i)
  }

  /** Once a pass fails, later passes change nothing. */
  lemma {:induction false} PassesStayFailed<T>(step: (Vec3, nat) -> Result<(Vec3, T)>, ps: seq<Vec3>, m: nat, n: nat)
    requires m <= n <= |ps| && Passes(step, ps, m).0.Err?
    ensures Passes(step, ps, n) == Passes(step, ps, m)
    decreases n
  {
    if m < n {
      PassesStayFailed(step, ps, m, n - 1);
    }
  }

  /** After n successful passes, record j and position j are pass j's on
      the original position j. */
  lemma {:induction false} PassesAt<T>(step: (Vec3, nat) -> Result<(Vec3, T)>, ps: seq<Vec3>, n: nat, j: nat)
    requires n <= |ps| && j < n && Passes(step, ps, n).0.Ok?
    ensures step(ps[j], j).Ok?
    ensures var o := Passes(step, ps, n);
            o.0.value[j] == step(ps[j], j).value.1 && o.1[j] == step(ps[j], j).value.0
  {
    var (r, qs) := Passes(step, ps, n - 1);
    assert qs[n - 1] == ps[n - 1];
    if j < n - 1 {
      PassesAt(step, ps, n - 1, j);
    }
  }

  /** The first n passes read only the first n positions. */
  lemma {:induction false} PassesLocal<T>(step: (Vec3, nat) -> Result<(Vec3, T)>, ps: seq<Vec3>, qs: seq<Vec3>, n: nat)
    requires n <= |ps| == |qs| && forall j :: 0 <= j < n ==> ps[j] == qs[j]
    ensures Passes(step, qs, n).0 == Passes(step, ps, n).0
    ensures forall j :: 0 <= j < n ==> Passes(step, qs, n).1[j] == Passes(step, ps, n).1[j]
  {
    if n > 0 {
      PassesLocal(step, ps, qs, n - 1);
    }
  }

  /** Running the passes again on the positions they wrote gives the same
      records and positions. */
  lemma {:induction false} PassesIdempotent<T>(step: (Vec3, nat) -> Result<(Vec3, T)>, ps: seq<Vec3>, n: nat)
    requires Settles(step) && n <= |ps| && Passes(step, ps, n).0.Ok?
    ensures Passes(step, Passes(step, ps, n).1, n) == Passes(step, ps, n)
  {
    if n > 0 {
      var (r, qs) := Passes(step, ps, n - 1);
      var out := Passes(step, ps, n).1;
      PassesIdempotent(step, ps, n - 1);
      PassesLocal(step, qs, out, n - 1);
      var (r', qs') := Passes(step, out, n - 1);
      assert qs' == out by {
        forall j | 0 <= j < |out|
          ensures qs'[j] == out[j]
        {
          if j < n - 1 {
            assert Passes(step, qs, n - 1).1[j] == qs[j];
          }
        }
      }
      assert qs[n - 1] == ps[n - 1];
      var st := step(ps[n - 1], n - 1).value;
      assert out == qs[n - 1 := st.0];
      assert r' == r;
      assert step(out[n - 1], n - 1) == Ok(st);
      assert out[n - 1 := st.0] == out;
    }
  }

  /** Every placement of a successful place_pmts follows the rules of its
      pass, there is one per stored position, and each stored position
      becomes its placement's. */
  lemma PlacedByRules(s: PmtState, j: nat)
    requires PlaceOutcome(s).0.Ok? && s.positions.Some? && j < |s.positions.value|
    ensures PlaceStep(s.params, s.positions.value[j], j).Ok?
    ensures var (r, t) := PlaceOutcome(s);
            |r.value| == |s.positions.value| && t.positions.Some?
            && r.value[j] == PlaceStep(s.params, s.positions.value[j], j).value.1
            && t.positions.value[j] == r.value[j].pos
  {
    var ps := s.positions.value;
    PassesAt(PlaceStepFn(s.params), ps, |ps|, j);
    StepRules(s.params, ps[j], j);
  }

  /** Placing twice gives the same placements and leaves the same positions:
      the second call writes the x the first wrote. */
  lemma PlaceIdempotent(s: PmtState)
    requires PlaceOutcome(s).0.Ok?
    ensures PlaceOutcome(PlaceOutcome(s).1) == PlaceOutcome(s)
  {
    var ps := s.positions.value;
    var step := PlaceStepFn(s.params);
    forall pos, i | step(pos, i).Ok?
      ensures step(step(pos, i).value.0, i) == step(pos, i)
    {
      StepSettles(s.params, pos, i);
    }
    PassesIdempotent(step, ps, |ps|);
  }

  // ---------------------------------------------------------------------------
  // The builder

  class PmtBuilder {
    var params: Option<PmtParams>
    var positions: Option<seq<Vec3>>
    var configured: bool

    function State(): PmtState
      reads this
    {
      PmtState(params, positions, configured)
    }

    constructor ()
      ensures State() == PmtState(None, None, false)
    {
      params, positions, configured := None, None, false;
    }

    /** configure; print flags are not modelled. */
    method Configure(pp: Option<PmtParams>) returns (r: Result<()>)
      modifies this
      ensures (r, State()) == ConfigureOutcome(old(State()), pp)
    {
      if configured {
        return Ok(());
      }
      if pp.Some? {
        params := pp;
      }
      r := GeneratePositions();
      if r.Ok? {
        configured := true;
      }
    }

    /** generate_pmt_positions. */
    method GeneratePositions() returns (r: Result<()>)
      modifies this
      ensures (r, State()) == GenerateOutcome(old(State()))
    {
      positions := Some([]);
      if params.None? {
        return Err(AttributeError("params"));
      }
      var p := params.value;
      if p.yPositions.None? {
        return Err(KeyError("pmt_y_positions"));
      }
      if p.zPositions.None? {
        return Err(KeyError("pmt_z_positions"));
      }
      var y, z := p.yPositions.value, p.zPositions.value;
      if |y| < 5 || |z| < 6 {
        return Err(IndexError);
      }
      positions := Some(positions.value + Front(y, z));
      assert positions.value == Front(y, z);
      var h := HorizontalReads(p);
      if h.Err? {
        return Err(h.failure);
      }
      var (htop, hbot, hz, hy) := h.value;
      positions := Some(positions.value + Middle(y, z, htop, hbot, hz, hy));
      positions := Some(positions.value + Horizontal(htop, hbot, -hz, hy));
      r := Ok(());
    }

    /** place_pmts: the placements appended to the cryostat volume. */
    method PlacePmts() returns (r: Result<seq<Placement>>)
      modifies this
      ensures (r, State()) == PlaceOutcome(old(State()))
    {
      if positions.None? {
        return Err(AttributeError("pmt_positions"));
      }
      ghost var ps := positions.value;
      var n := |positions.value|;
      var placed: seq<Placement> := [];
      var i := 0;
      while i < n
        invariant 0 <= i <= n == |ps| && params == old(params) && configured == old(configured)
        invariant positions.Some? && Passes(PlaceStepFn(params), ps, i) == (Ok(placed), positions.value)
      {
        var step := PlaceStep(params, positions.value[i], i);
        if step.Err? {
          PassesStayFailed(PlaceStepFn(params), ps, i + 1, n);
          return Err(step.failure);
        }
        positions := Some(positions.value[i := step.value.0]);
        placed := placed + [step.value.1];
        i := i + 1;
      }
      r := Ok(placed);
    }
  }
}
