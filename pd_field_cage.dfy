/** The ProtoDUNE-VD field cage builder (protodunevd/fieldcage.py): the
    dimensions it derives at configuration, the profile it builds from a
    chain of boolean solids, and the column of field shapers it places,
    slim ones at both ends and thick ones in the middle. */
module PdFieldCage {
  import opened Wrappers
  import opened Strings
  import opened Placements
  import opened Shapes

  /** The entries configure reads from its parameter dictionary (cm); an
      entry the dictionary lacks is None, as `dict.get` gives. */
  datatype CageInput = CageInput(
    innerRadius: Option<real>, outerRadius: Option<real>,
    slimInnerRadius: Option<real>, slimOuterRadius: Option<real>,
    torRad: Option<real>, separation: Option<real>, nShapers: Option<int>,
    baseLength: Option<real>, baseWidth: Option<real>, firstShaperToRoof: Option<real>)

  /** The derived attributes, each absent until configure assigns it. */
  datatype CageDims = CageDims(length: Option<real>, width: Option<real>,
                               cutLength: Option<real>, cutWidth: Option<real>,
                               cageX: Option<real>, cageY: Option<real>, cageZ: Option<real>)

  const NoDims: CageDims := CageDims(None, None, None, None, None, None, None)

  /** The builder's attributes: the ten read ones (None until a truthy
      dictionary is given), the derived ones, and whether configure ran to
      its end. */
  datatype CageState = CageState(input: Option<CageInput>, dims: CageDims, configured: bool)

  /** Arithmetic with a None operand. */
  const NoneOperand: Failure := TypeError("unsupported operand type(s) for NoneType")

  /** configure: a configured builder returns at once; a truthy dictionary
      (None stands for a missing or empty one) sets the ten attributes,
      then the derived ones in order, each arithmetic on a None raising a
      TypeError that leaves the builder unconfigured. */
  function ConfigureOutcome(s: CageState, input: Option<CageInput>): (Result<()>, CageState)
  {
    if s.configured then (Ok(()), s)
    else if input.None? then (Ok(()), s.(configured := true))
    else
      var p := input.value;
      var s1 := s.(input := input);
      if p.torRad.None? || p.baseLength.None? then (Err(NoneOperand), s1)
      else
        var length := p.baseLength.value - 2.0 * p.torRad.value;
        var s2 := s1.(dims := s1.dims.(length := Some(length)));
        if p.baseWidth.None? then (Err(NoneOperand), s2)
        else
          var width := p.baseWidth.value - 2.0 * p.torRad.value;
          var s3 := s2.(dims := s2.dims.(width := Some(width), cutLength := Some(length + 0.02),
                                         cutWidth := Some(width + 0.02)));
          if p.separation.None? || p.nShapers.None? then (Err(NoneOperand), s3)
          else
            (Ok(()), s3.(dims := s3.dims.(cageX := Some(CageX(p.separation.value, p.nShapers.value)),
                                          cageY := Some(width + 2.0), cageZ := Some(length + 2.0)),
                         configured := true))
  }

  /** The cage's x extent: n_shapers separations and 1 cm on each side. */
  function CageX(separation: real, nShapers: int): real
  {
    separation * (nShapers as real) + 2.0
  }

  // ---------------------------------------------------------------------------
  // Profiles

  /** The five solids of one profile (cm): a half circle, a rectangle, the
      cutter, and two arcs, `length` long; the cutter `cutLength` long. */
  datatype Components = Components(halfcirc: Shape, rect: Shape, cutter: Shape, arc1: Shape, arc2: Shape)

  /** create_profile_components for a profile of the given length. */
  function MakeComponents(prefix: string, length: real, cutLength: real): Components
  {
    Components(Tubs(prefix + "FChalfcirc", 0.0, 0.318, length / 2.0),
               Box(prefix + "FCrect", 1.042 / 2.0, 0.1 / 2.0, length / 2.0),
               Box(prefix + "FCcutter", 0.051 / 2.0, 0.637 / 2.0, cutLength / 2.0),
               Tubs(prefix + "FCarc1", 2.758, 2.858, length / 2.0),
               Tubs(prefix + "FCarc2", 6.409, 6.509, length / 2.0))
  }

  /** One entry of create_profile's operation list. */
  datatype ProfileOp = ProfileOp(name: string, op: BoolOp, second: Shape, pos: Vec3)

  /** The four operations: the half circle minus the cutter, then the
      rectangle and the two arcs united in turn. */
  function ProfileOps(prefix: string, c: Components): seq<ProfileOp>
  {
    [ProfileOp(prefix + "FChalfcircCut", Subtraction, c.cutter, Vec3(0.0249, 0.0, 0.0)),
     ProfileOp(prefix + "FCcircAndRect", Union, c.rect, Vec3(-0.4705, -0.268, 0.0)),
     ProfileOp(prefix + "FCwithArc1", Union, c.arc1, Vec3(-1.4204, -2.11, 0.0)),
     ProfileOp(prefix + "FCwithArc2", Union, c.arc2, Vec3(-1.984, -5.716, 0.0))]
  }

  /** The solid after operation i of the list (i = 0 .. 3): operation 0
      acts on the half circle, every later one on the previous result. */
  function ProfileStep(prefix: string, c: Components, i: nat): Shape
    requires i < 4
  {
    var op := ProfileOps(prefix, c)[i];
    Boolean(op.name, op.op, if i == 0 then c.halfcirc else ProfileStep(prefix, c, i - 1), op.second,
            "pos" + prefix + NatToString(i + 1), op.pos, NoRot)
  }

  /** The profile: the chain united with itself, mirrored about the y axis
      and shifted by 3.968 cm. */
  function Profile(prefix: string, c: Components): Shape
  {
    var result := ProfileStep(prefix, c, 3);
    Boolean(prefix + "FCProfile", Union, result, result, "pos" + prefix + "final", Vec3(-3.968, 0.0, 0.0),
            "rot" + prefix + "final")
  }

  /** The chain of a profile has the half circle at its base and the four
      operations as its layers, in list order, each on the one before. */
  lemma ProfileChain(prefix: string, c: Components, k: nat)
    requires k < 4 && !c.halfcirc.Boolean?
    ensures var p := Profile(prefix, c);
            var l := Layers(p.first);
            p.first == p.second && Base(p) == c.halfcirc && |l| == 4
            && l[k].Boolean? && l[k].name == ProfileOps(prefix, c)[k].name && l[k].op == ProfileOps(prefix, c)[k].op
            && l[k].second == ProfileOps(prefix, c)[k].second
            && l[k].first == (if k == 0 then c.halfcirc else l[k - 1])
  {
    StepLayers(prefix, c, 3, k);
    if k > 0 {
      StepLayers(prefix, c, 3, k - 1);
    }
  }

  lemma {:induction false} StepLayers(prefix: string, c: Components, n: nat, k: nat)
    requires k <= n < 4 && !c.halfcirc.Boolean?
    ensures |Layers(ProfileStep(prefix, c, n))| == n + 1
    ensures Base(ProfileStep(prefix, c, n)) == c.halfcirc
    ensures Layers(ProfileStep(prefix, c, n))[k] == ProfileStep(prefix, c, k)
  {
    var s := ProfileStep(prefix, c, n);
    OnTop(s);
    if n > 0 {
      StepLayers(prefix, c, n - 1, if k < n then k else 0);
    }
  }

  /** The profile's parts are as long as the profile, and the cutter sticks
      out by 0.01 cm at each end. */
  lemma ComponentLengths(prefix: string, length: real)
    ensures var c := MakeComponents(prefix, length, length + 0.02);
            c.halfcirc.dz == c.rect.dz == c.arc1.dz == c.arc2.dz == length / 2.0
            && c.cutter.dz == c.halfcirc.dz + 0.01
  {
  }

  // ---------------------------------------------------------------------------
  // Placement

  const SlimRotation: string := "rPlus90AboutXPlus90AboutZ"

  /** Shapers 0 .. 35 and 78 onwards are slim. */
  predicate IsSlim(i: nat)
  {
    i < 36 || i > 77
  }

  /** The x position of shaper i: below the first one by i separations. */
  function ShaperX(offsetX: real, first: real, sep: real, i: nat): real
  {
    offsetX - first - (i as real) * sep
  }

  /** Shaper i of place_in_volume: at ShaperX in x; a slim shaper at
      z = length/2 + tor_rad, rotated; a thick one at y = width/2 + tor_rad.
      A None separation, first_shaper_to_roof or tor_rad raises a TypeError,
      a derived dimension never assigned an AttributeError. */
  function ShaperAt(p: CageInput, d: CageDims, offsetX: real, i: nat): Result<Placement>
  {
    if p.separation.None? || p.firstShaperToRoof.None? then Err(NoneOperand)
    else
      var posX := ShaperX(offsetX, p.firstShaperToRoof.value, p.separation.value, i);
      var name := "placeFieldShaper" + NatToString(i);
      if IsSlim(i) then
        if d.length.None? then Err(AttributeError("length"))
        else if p.torRad.None? then Err(NoneOperand)
        else Ok(Placement(name, "volFieldShaperSlim", Vec3(posX, 0.0, 0.5 * d.length.value + p.torRad.value),
                          SlimRotation))
      else
        if d.width.None? then Err(AttributeError("width"))
        else if p.torRad.None? then Err(NoneOperand)
        else Ok(Placement(name, "volFieldShaper", Vec3(posX, 0.5 * d.width.value + p.torRad.value, 0.0), "rIdentity"))
  }

  function ShaperFn(p: CageInput, d: CageDims, offsetX: real): nat -> Result<Placement>
  {
    (i: nat) => ShaperAt(p, d, offsetX, i)
  }


  /** place_in_volume: one placement per shaper, in order. */
  function PlaceOutcome(s: CageState, offsetX: real): Result<seq<Placement>>
  {
    if s.input.None? then Err(AttributeError("n_shapers"))
    else if s.input.value.nShapers.None? then Err(TypeError("'NoneType' object cannot be interpreted as an integer"))
    else
      var (r, placed) := Collect(ShaperFn(s.input.value, s.dims, offsetX), RangeLen(s.input.value.nShapers.value));
      if r.Err? then Err(r.failure) else Ok(placed)
  }

  // ---------------------------------------------------------------------------
  // Properties

  /** configure fails exactly when the dictionary lacks an entry the
      derived dimensions need; either way it sets the ten attributes. */
  lemma ConfigureFails(s: CageState, input: Option<CageInput>)
    requires !s.configured
    ensures var (r, t) := ConfigureOutcome(s, input);
            (r.Err? <==> input.Some? && (input.value.torRad.None? || input.value.baseLength.None?
                                         || input.value.baseWidth.None? || input.value.separation.None?
                                         || input.value.nShapers.None?))
            && (r.Err? ==> !t.configured)
            && t.input == (if input.Some? then input else s.input)
  {
  }

  /** After a successful configure with a dictionary: the straight length
      plus two torus radii is the base length (likewise the width), the
      cutters are 0.02 cm longer than the straight parts, and the cage
      clears the shapers by 1 cm on each side in y and z and spans n_shapers
      separations plus 2 cm in x. */
  lemma DerivedDims(s: CageState, input: Option<CageInput>)
    requires !s.configured && input.Some? && ConfigureOutcome(s, input).0.Ok?
    ensures var p, d := input.value, ConfigureOutcome(s, input).1.dims;
            p.torRad.Some? && p.baseLength.Some? && p.baseWidth.Some? && p.separation.Some? && p.nShapers.Some?
            && d.length.Some? && d.width.Some? && d.cutLength.Some? && d.cutWidth.Some?
            && d.cageX.Some? && d.cageY.Some? && d.cageZ.Some?
            && d.length.value + 2.0 * p.torRad.value == p.baseLength.value
            && d.width.value + 2.0 * p.torRad.value == p.baseWidth.value
            && d.cutLength.value - d.length.value == 0.02 && d.cutWidth.value - d.width.value == 0.02
            && d.cageY.value - d.width.value == 2.0 && d.cageZ.value - d.length.value == 2.0
            && d.cageX.value - p.separation.value * (p.nShapers.value as real) == 2.0
  {
  }

  /** A second configure changes nothing. */
  lemma ConfigureOnce(s: CageState, input: Option<CageInput>, input2: Option<CageInput>)
    requires ConfigureOutcome(s, input).0.Ok?
    ensures var t := ConfigureOutcome(s, input).1;
            t.configured && ConfigureOutcome(t, input2) == (Ok(()), t)
  {
  }

  /** After a successful configure with a dictionary, place_in_volume
      places max(n_shapers, 0) shapers; shaper i is slim exactly when i < 36
      or i > 77, at x = offset - first_shaper_to_roof - i * separation. */
  lemma PlacedShapers(s: CageState, input: Option<CageInput>, offsetX: real, i: nat)
    requires !s.configured && input.Some? && ConfigureOutcome(s, input).0.Ok?
    ensures var t := ConfigureOutcome(s, input).1;
            var p := input.value;
            var r := PlaceOutcome(t, offsetX);
            p.nShapers.Some? && p.separation.Some? && p.firstShaperToRoof.Some? ==>
              r.Ok? && |r.value| == RangeLen(p.nShapers.value)
              && (i < |r.value| ==>
                    (r.value[i].volume == "volFieldShaperSlim" <==> IsSlim(i))
                    && r.value[i].pos.x == offsetX - p.firstShaperToRoof.value - (i as real) * p.separation.value
                    && r.value[i].rot == (if IsSlim(i) then SlimRotation else "rIdentity"))
  {
    var t := ConfigureOutcome(s, input).1;
    var p := input.value;
    DerivedDims(s, input);
    if p.nShapers.Some? && p.separation.Some? && p.firstShaperToRoof.Some? {
      var f := ShaperFn(p, t.dims, offsetX);
      var n := RangeLen(p.nShapers.value);
      forall k | 0 <= k < n
        ensures f(k).Ok?
      {
        assert f(k) == ShaperAt(p, t.dims, offsetX, k);
      }
      CollectOk(f, n);
      if i < n {
        CollectAt(f, n, i);
      }
    }
  }

  /** Neighbouring shapers are one separation apart in x. */
  lemma ShapersEvenlySpaced(p: CageInput, d: CageDims, offsetX: real, i: nat)
    requires ShaperAt(p, d, offsetX, i).Ok? && ShaperAt(p, d, offsetX, i + 1).Ok?
    ensures p.separation.Some?
    ensures ShaperAt(p, d, offsetX, i).value.pos.x - ShaperAt(p, d, offsetX, i + 1).value.pos.x == p.separation.value
  {
    ShaperPosition(p, d, offsetX, i);
    ShaperPosition(p, d, offsetX, i + 1);
    ShaperXStep(offsetX, p.firstShaperToRoof.value, p.separation.value, i);
  }

  lemma ShaperXStep(offsetX: real, first: real, sep: real, i: nat)
    ensures ShaperX(offsetX, first, sep, i) - ShaperX(offsetX, first, sep, i + 1) == sep
  {
    assert ((i + 1) as real) * sep == (i as real) * sep + sep;
  }

  /** A shaper placed is at ShaperX, slim exactly when IsSlim says. */
  lemma ShaperPosition(p: CageInput, d: CageDims, offsetX: real, i: nat)
    requires ShaperAt(p, d, offsetX, i).Ok?
    ensures p.separation.Some? && p.firstShaperToRoof.Some?
    ensures var pl := ShaperAt(p, d, offsetX, i).value;
            pl.pos.x == ShaperX(offsetX, p.firstShaperToRoof.value, p.separation.value, i)
            && (pl.volume == "volFieldShaperSlim" <==> IsSlim(i))
            && pl.rot == (if IsSlim(i) then SlimRotation else "rIdentity")
  {
  }

  // ---------------------------------------------------------------------------
  // The builder

  /** create_profile: the operation list applied in order, each on the
      running result, then the mirrored union. */
  method CreateProfile(prefix: string, c: Components) returns (profile: Shape)
    ensures profile == Profile(prefix, c)
  {
    var ops := ProfileOps(prefix, c);
    var result := c.halfcirc;
    for i := 0 to 4
      invariant i > 0 ==> result == ProfileStep(prefix, c, i - 1)
    {
      var pos := "pos" + prefix + NatToString(i + 1);
      if i == 0 {
        result := Boolean(ops[i].name, ops[i].op, c.halfcirc, ops[i].second, pos, ops[i].pos, NoRot);
      } else {
        result := Boolean(ops[i].name, ops[i].op, result, ops[i].second, pos, ops[i].pos, NoRot);
      }
    }
    profile := Boolean(prefix + "FCProfile", Union, result, result, "pos" + prefix + "final", Vec3(-3.968, 0.0, 0.0),
                       "rot" + prefix + "final");
  }

  class FieldCageBuilder {
    var input: Option<CageInput>
    var dims: CageDims
    var configured: bool

    function State(): CageState
      reads this
    {
      CageState(input, dims, configured)
    }

    constructor ()
      ensures State() == CageState(None, NoDims, false)
    {
      input, dims, configured := None, NoDims, false;
    }

    /** configure; the print flags are not modelled. */
    method Configure(parameters: Option<CageInput>) returns (r: Result<()>)
      modifies this
      ensures (r, State()) == ConfigureOutcome(old(State()), parameters)
    {
      if configured {
        return Ok(());
      }
      if parameters.Some? {
        var p := parameters.value;
        input := parameters;
        if p.torRad.None? || p.baseLength.None? {
          return Err(NoneOperand);
        }
        dims := dims.(length := Some(p.baseLength.value - 2.0 * p.torRad.value));
        if p.baseWidth.None? {
          return Err(NoneOperand);
        }
        dims := dims.(width := Some(p.baseWidth.value - 2.0 * p.torRad.value));
        dims := dims.(cutLength := Some(dims.length.value + 0.02));
        dims := dims.(cutWidth := Some(dims.width.value + 0.02));
        if p.separation.None? || p.nShapers.None? {
          return Err(NoneOperand);
        }
        dims := dims.(cageX := Some(CageX(p.separation.value, p.nShapers.value)));
        dims := dims.(cageY := Some(dims.width.value + 2.0));
        dims := dims.(cageZ := Some(dims.length.value + 2.0));
      }
      configured := true;
      r := Ok(());
    }

    /** place_in_volume: the placements appended to the given volume. */
    method PlaceInVolume(offsetX: real) returns (r: Result<seq<Placement>>)
      ensures r == PlaceOutcome(State(), offsetX)
    {
      if input.None? {
        return Err(AttributeError("n_shapers"));
      }
      if input.value.nShapers.None? {
        return Err(TypeError("'NoneType' object cannot be interpreted as an integer"));
      }
      var p := input.value;
      var n := RangeLen(p.nShapers.value);
      var placed: seq<Placement> := [];
      for i := 0 to n
        invariant Collect(ShaperFn(p, dims, offsetX), i) == (Ok(()), placed)
      {
        var place := ShaperAt(p, dims, offsetX, i);
        if place.Err? {
          CollectStayFailed(ShaperFn(p, dims, offsetX), i + 1, n);
          return Err(place.failure);
        }
        placed := placed + [place.value];
      }
      r := Ok(placed);
    }
  }
}
