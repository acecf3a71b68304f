/** The FGT ECAL module builder (fgt/ECALMod.py): a lead box holding a
    stack of scintillator-bar planes, each behind a lead layer, with the
    bars of alternate planes turned a quarter turn about z. */
module EcalMod {
  import opened Wrappers
  import opened Strings
  import opened Placements
  import opened Shapes

  /** The keyword arguments configure reads; None when not given. */
  datatype EcalInput = EcalInput(ecalThickness: Option<real>, leadThickness: Option<real>, nSBPlanes: Option<int>)

  /** A configured builder: its name, the lead material and the three
      values configure stored (cm; a count of planes). */
  datatype EcalConfig = EcalConfig(name: string, material: string, ecalThickness: real, leadThickness: real, nSBPlanes: int)

  const Lead: string := "Lead"

  /** The volume the plane builder provides. */
  const PlaneVolume: string := "volSBPlane"

  /** The rotation of the odd planes. */
  const QuarterTurn: string := "r90aboutZ"

  /** configure: each of the three arguments is required, checked in the
      order ecalThickness, leadThickness, nSBPlanes. */
  function Configure(name: string, input: EcalInput): (r: Result<EcalConfig>)
    ensures r.Ok? <==> input.ecalThickness.Some? && input.leadThickness.Some? && input.nSBPlanes.Some?
    ensures input.ecalThickness.None? ==> r == Err(ValueError("No value given for ecalThickness"))
    ensures input.ecalThickness.Some? && input.leadThickness.None? ==> r == Err(ValueError("No value given for leadThickness"))
    ensures input.ecalThickness.Some? && input.leadThickness.Some? && input.nSBPlanes.None?
            ==> r == Err(ValueError("No value given for nSBPlanes"))
    ensures r.Ok? ==> r.value.name == name && r.value.material == Lead
                      && Some(r.value.ecalThickness) == input.ecalThickness
                      && Some(r.value.leadThickness) == input.leadThickness
                      && Some(r.value.nSBPlanes) == input.nSBPlanes
  {
    if input.ecalThickness.None? then Err(ValueError("No value given for ecalThickness"))
    else if input.leadThickness.None? then Err(ValueError("No value given for leadThickness"))
    else if input.nSBPlanes.None? then Err(ValueError("No value given for nSBPlanes"))
    else Ok(EcalConfig(name, Lead, input.ecalThickness.value, input.leadThickness.value, input.nSBPlanes.value))
  }

  /** The module's dimensions: the plane's x and y, and in z one lead
      layer and one plane per plane; the configured thickness is not used. */
  function EcalDim(c: EcalConfig, plane: Vec3): Vec3
  {
    Vec3(plane.x, plane.y, (c.nSBPlanes as real) * (c.leadThickness + plane.z))
  }

  /** The module's volume: a box of half the dimensions, of lead. */
  function EcalVolume(c: EcalConfig, plane: Vec3): Volume
  {
    var d := EcalDim(c, plane);
    Volume("vol" + c.name, c.material, Box(c.name, 0.5 * d.x, 0.5 * d.y, 0.5 * d.z), [])
  }

  /** The centre of plane i: i + 1 lead layers and i planes from the -z face. */
  function PlaneZ(c: EcalConfig, plane: Vec3, i: nat): real
  {
    -0.5 * EcalDim(c, plane).z + (i as real + 0.5) * plane.z + (i as real + 1.0) * c.leadThickness
  }

  function PlaneRotation(i: nat): string
  {
    if i % 2 == 0 then NoRot else QuarterTurn
  }

  function PlanePlacement(c: EcalConfig, plane: Vec3, i: nat): Placement
  {
    Placement("placeSBPlane-" + NatToString(i) + "_in_" + c.name, PlaneVolume,
              Vec3(0.0, 0.0, PlaneZ(c, plane, i)), PlaneRotation(i))
  }

  /** The planes construct places, in loop order. */
  function Planes(c: EcalConfig, plane: Vec3): seq<Placement>
  {
    seq(RangeLen(c.nSBPlanes), i requires 0 <= i => PlanePlacement(c, plane, i))
  }

  /** Whether a placement keeps the plane's own orientation (bars along x). */
  predicate Unrotated(q: Placement)
  {
    q.rot == NoRot
  }

  /** Of the first k planes, (k + 1) / 2 are unrotated: planes 0, 2, 4, ... */
  lemma {:induction false} UnrotatedPrefix(c: EcalConfig, plane: Vec3, k: nat)
    requires k <= RangeLen(c.nSBPlanes)
    ensures |Filter(Unrotated, Planes(c, plane)[..k])| == (k + 1) / 2
  {
    if k > 0 {
      var ps := Planes(c, plane);
      UnrotatedPrefix(c, plane, k - 1);
      assert ps[..k] == ps[..k - 1] + [ps[k - 1]];
      FilterAppend(Unrotated, ps[..k - 1], [ps[k - 1]]);
      assert [ps[k - 1]][1..] == [];
      assert Unrotated(ps[k - 1]) <==> (k - 1) % 2 == 0;
    }
  }

  /** Plane i is turned about z exactly when i is odd, and otherwise
      carries no rotation. */
  lemma PlaneOrientation(c: EcalConfig, plane: Vec3, i: nat)
    requires i < RangeLen(c.nSBPlanes)
    ensures Planes(c, plane)[i].rot == QuarterTurn <==> i % 2 == 1
    ensures Planes(c, plane)[i].rot == NoRot <==> i % 2 == 0
  {
  }

  /** Consecutive planes sit one plane and one lead layer apart. */
  lemma PlanesSpaced(c: EcalConfig, plane: Vec3, i: nat)
    requires i + 1 < RangeLen(c.nSBPlanes)
    ensures Planes(c, plane)[i + 1].pos.z - Planes(c, plane)[i].pos.z == plane.z + c.leadThickness
  {
    PlaneZStep(c, plane, i);
  }

  lemma PlaneZStep(c: EcalConfig, plane: Vec3, i: nat)
    ensures PlaneZ(c, plane, i + 1) - PlaneZ(c, plane, i) == plane.z + c.leadThickness
  {
    var x, l, s := i as real, c.leadThickness, plane.z;
    assert (i + 1) as real == x + 1.0;
    assert (x + 1.0 + 0.5) * s == x * s + 1.5 * s;
    assert (x + 0.5) * s == x * s + 0.5 * s;
    assert (x + 1.0 + 1.0) * l == x * l + 2.0 * l;
    assert (x + 1.0) * l == x * l + l;
  }

  /** The stack fills the module: a lead layer first at the -z face, and
      the last plane's far face on the +z face. */
  lemma PlanesFillModule(c: EcalConfig, plane: Vec3)
    requires c.nSBPlanes > 0
    ensures var ps, z := Planes(c, plane), EcalDim(c, plane).z;
            ps[0].pos.z - 0.5 * plane.z - c.leadThickness == -0.5 * z
            && ps[|ps| - 1].pos.z + 0.5 * plane.z == 0.5 * z
  {
    LastPlaneZ(c, plane, (c.nSBPlanes - 1) as nat);
  }

  lemma LastPlaneZ(c: EcalConfig, plane: Vec3, k: nat)
    requires k + 1 == c.nSBPlanes
    ensures PlaneZ(c, plane, k) + 0.5 * plane.z == 0.5 * EcalDim(c, plane).z
  {
    var l, s := c.leadThickness, plane.z;
    var x := c.nSBPlanes as real;
    assert k as real == x - 1.0;
    assert (x - 1.0 + 0.5) * s == x * s - 0.5 * s;
    assert (x - 1.0 + 1.0) * l == x * l;
    assert x * (l + s) == x * l + x * s;
  }

  /** construct: the module's volume, its planes in order, and the
      counters of unrotated (n1) and rotated (n2) planes. With no planes
      the closing report reads the loop variable before any assignment. */
  method Construct(c: EcalConfig, plane: Vec3) returns (r: Result<()>, vol: Volume, placed: seq<Placement>, n1: nat, n2: nat)
    ensures vol == EcalVolume(c, plane)
    ensures placed == Planes(c, plane)
    ensures n1 == |Filter(Unrotated, placed)| == (|placed| + 1) / 2
    ensures n2 == |placed| - n1 == |placed| / 2
    ensures r.Ok? <==> c.nSBPlanes > 0
    ensures r.Err? ==> r.failure == UnboundLocalError("i")
  {
    var dim := EcalDim(c, plane);
    vol := Volume("vol" + c.name, c.material, Box(c.name, 0.5 * dim.x, 0.5 * dim.y, 0.5 * dim.z), []);
    placed := [];
    n1, n2 := 0, 0;
    var ran := false;
    for i := 0 to RangeLen(c.nSBPlanes)
      invariant placed == Planes(c, plane)[..i]
      invariant n1 == (i + 1) / 2 && n2 == i / 2
      invariant ran <==> i > 0
    {
      var zpos := PlaneZ(c, plane, i);
      var place;
      if i % 2 == 0 {
        place := Placement("placeSBPlane-" + NatToString(i) + "_in_" + c.name, PlaneVolume, Vec3(0.0, 0.0, zpos), NoRot);
        assert (i + 2) / 2 == (i + 1) / 2 + 1 && (i + 1) / 2 == i / 2;
        n1 := n1 + 1;
      } else {
        place := Placement("placeSBPlane-" + NatToString(i) + "_in_" + c.name, PlaneVolume, Vec3(0.0, 0.0, zpos), QuarterTurn);
        assert (i + 2) / 2 == (i + 1) / 2 && (i + 1) / 2 == i / 2 + 1;
        n2 := n2 + 1;
      }
      assert place == PlanePlacement(c, plane, i);
      assert Planes(c, plane)[..i + 1] == Planes(c, plane)[..i] + [place];
      placed := placed + [place];
      ran := true;
    }
    assert placed == Planes(c, plane)[..RangeLen(c.nSBPlanes)];
    UnrotatedPrefix(c, plane, RangeLen(c.nSBPlanes));
    if ran {
      r := Ok(());
    } else {
      r := Err(UnboundLocalError("i"));
    }
  }
}
