/** The cosmic-ray tagger (CRT) builder of ProtoDUNE-VD: the positions of
    its 16 downstream and 16 upstream modules, the beam spot, and the
    placements of the modules in the detector enclosure. */
module Crt {
  import opened Wrappers
  import opened Strings
  import opened Placements
  import opened Dicts

  /** One row of a configuration table: the module's base name (for its x
      and y), its z name, the signs of its offsets, its rotation and its
      index. */
  datatype ModuleConfig = ModuleConfig(base: string, zPos: string, mods: (int, int, int), rot: string, idx: nat)

  const Flat: string := "rPlus90AboutX"
  const Upright: string := "rMinus90AboutYMinus90AboutX"

  /** The table for one side ("DS" downstream, "US" upstream): four
      quadrants of four modules, the first two of each laid flat and side by
      side in x, the last two upright and side by side in y. */
  function Configs(side: string): seq<ModuleConfig>
  {
    [ModuleConfig(side + "TopLeft", side + "TopLeftBa", (-1, -1, 1), Flat, 0),
     ModuleConfig(side + "TopLeft", side + "TopLeftBa", (1, -1, 1), Flat, 1),
     ModuleConfig(side + "TopLeft", side + "TopLeftFr", (-1, -1, 1), Upright, 2),
     ModuleConfig(side + "TopLeft", side + "TopLeftFr", (-1, 1, 1), Upright, 3),
     ModuleConfig(side + "BotLeft", side + "BotLeftFr", (-1, 1, 1), Flat, 4),
     ModuleConfig(side + "BotLeft", side + "BotLeftFr", (1, 1, 1), Flat, 5),
     ModuleConfig(side + "BotLeft", side + "BotLeftBa", (-1, -1, 1), Upright, 6),
     ModuleConfig(side + "BotLeft", side + "BotLeftBa", (-1, 1, 1), Upright, 7),
     ModuleConfig(side + "TopRight", side + "TopRightFr", (-1, -1, 1), Flat, 8),
     ModuleConfig(side + "TopRight", side + "TopRightFr", (1, -1, 1), Flat, 9),
     ModuleConfig(side + "TopRight", side + "TopRightBa", (1, -1, 1), Upright, 10),
     ModuleConfig(side + "TopRight", side + "TopRightBa", (1, 1, 1), Upright, 11),
     ModuleConfig(side + "BotRight", side + "BotRightBa", (-1, 1, 1), Flat, 12),
     ModuleConfig(side + "BotRight", side + "BotRightBa", (1, 1, 1), Flat, 13),
     ModuleConfig(side + "BotRight", side + "BotRightFr", (1, -1, 1), Upright, 14),
     ModuleConfig(side + "BotRight", side + "BotRightFr", (1, 1, 1), Upright, 15)]
  }

  /** A computed module position and its rotation: one element of each of
      the four parallel lists posCRT<side>_x, _y, _z and _rot. */
  datatype CrtEntry = CrtEntry(pos: Vec3, rot: string)

  /** The builder's attributes. The parameter dictionaries are None until a
      truthy one is given; the beam spot coordinates are None until
      assigned; a switch that is None is false. */
  datatype CrtState = CrtState(
    crt: Option<map<string, real>>,
    steel: Option<map<string, map<string, real>>>,
    origin: (Option<real>, Option<real>, Option<real>),
    dpSwitch: bool,
    hdSwitch: bool,
    configured: bool,
    ds: seq<CrtEntry>,
    us: seq<CrtEntry>,
    beam: (Option<real>, Option<real>, Option<real>))

  /** The CRT and steel-support parameter dictionaries. */
  type Table = Option<map<string, real>>
  type Steel = Option<map<string, map<string, real>>>

  /** `steel['posCryoInDetEnc'][axis]`. */
  function CryoPos(steel: Steel, axis: string): (r: Result<real>)
    ensures r.Ok? <==> steel.Some? && "posCryoInDetEnc" in steel.value && axis in steel.value["posCryoInDetEnc"]
    ensures r.Ok? ==> r.value == steel.value["posCryoInDetEnc"][axis]
  {
    if steel.None? then Err(TypeError("'NoneType' object is not subscriptable"))
    else if "posCryoInDetEnc" !in steel.value then Err(KeyError("posCryoInDetEnc"))
    else Get(Some(steel.value["posCryoInDetEnc"]), axis)
  }

  /** The key whose spacing offsets a module along x, or along y. */
  function XSpacing(idx: nat): string { if idx % 4 in {2, 3} then "ModuleLongCorr" else "ModuleSMDist" }
  function YSpacing(idx: nat): string { if idx % 4 in {0, 1} then "ModuleLongCorr" else "ModuleSMDist" }

  /** One horizontal coordinate of a module: cryostat position, survey
      origin, the module's base entry, then sign times the spacing, read
      left to right as Python does. */
  function AxisAt(crt: Table, steel: Steel, axis: string, base: string, spacing: string, sign: int): (r: Result<real>)
    ensures r.Ok? ==> CryoPos(steel, axis).Ok? && crt.Some? && "CRTSurveyOrigin_" + axis in crt.value
                      && "CRT_" + base + "_" + axis in crt.value && spacing in crt.value
                      && r.value == CryoPos(steel, axis).value + crt.value["CRTSurveyOrigin_" + axis]
                                    + crt.value["CRT_" + base + "_" + axis] + (sign as real) * crt.value[spacing]
  {
    var p :- CryoPos(steel, axis);
    var o :- Get(crt, "CRTSurveyOrigin_" + axis);
    var b :- Get(crt, "CRT_" + base + "_" + axis);
    var m :- Get(crt, spacing);
    Ok(p + o + b + (sign as real) * m)
  }

  /** A module's z: survey origin, its z entry, then sign times ModuleOff_z. */
  function ZAt(crt: Table, zPos: string, sign: int): (r: Result<real>)
    ensures r.Ok? ==> crt.Some? && "CRTSurveyOrigin_z" in crt.value && "CRT_" + zPos + "_z" in crt.value
                      && "ModuleOff_z" in crt.value
                      && r.value == crt.value["CRTSurveyOrigin_z"] + crt.value["CRT_" + zPos + "_z"]
                                    + (sign as real) * crt.value["ModuleOff_z"]
  {
    var o :- Get(crt, "CRTSurveyOrigin_z");
    var b :- Get(crt, "CRT_" + zPos + "_z");
    var m :- Get(crt, "ModuleOff_z");
    Ok(o + b + (sign as real) * m)
  }

  /** One module's position: x, then y, then z. */
  function EntryAt(crt: Table, steel: Steel, c: ModuleConfig): Result<Vec3>
  {
    var x :- AxisAt(crt, steel, "x", c.base, XSpacing(c.idx), c.mods.0);
    var y :- AxisAt(crt, steel, "y", c.base, YSpacing(c.idx), c.mods.1);
    var z :- ZAt(crt, c.zPos, c.mods.2);
    Ok(Vec3(x, y, z))
  }

  /** A position is computed exactly when its three coordinates are, and
      is made of them. */
  lemma EntryParts(crt: Table, steel: Steel, c: ModuleConfig)
    ensures var x, y, z := AxisAt(crt, steel, "x", c.base, XSpacing(c.idx), c.mods.0),
                           AxisAt(crt, steel, "y", c.base, YSpacing(c.idx), c.mods.1), ZAt(crt, c.zPos, c.mods.2);
            (EntryAt(crt, steel, c).Ok? <==> x.Ok? && y.Ok? && z.Ok?)
            && (EntryAt(crt, steel, c).Ok? ==> EntryAt(crt, steel, c).value == Vec3(x.value, y.value, z.value))
  {
  }

  /** The first n rows of a table processed in order: the entries appended
      before the first failing row. */
  function EntriesPrefix(crt: Table, steel: Steel, cfgs: seq<ModuleConfig>, n: nat): (o: (Result<()>, seq<CrtEntry>))
    requires n <= |cfgs|
    ensures o.0.Ok? ==> |o.1| == n
  {
    if n == 0 then (Ok(()), [])
    else
      var (r, es) := EntriesPrefix(crt, steel, cfgs, n - 1);
      if r.Err? then (r, es)
      else
        match EntryAt(crt, steel, cfgs[n - 1])
        case Err(f) => (Err(f), es)
        case Ok(v) => (Ok(()), es + [CrtEntry(v, cfgs[n - 1].rot)])
  }

  /** One beam spot coordinate: cryostat position, survey origin, the
      beam-spot entry and the configured origin, which must not be None. */
  function BeamAt(crt: Table, steel: Steel, axis: string, origin: Option<real>): (r: Result<real>)
    ensures r.Ok? <==> CryoPos(steel, axis).Ok? && crt.Some? && "CRTSurveyOrigin_" + axis in crt.value
                       && "BeamSpotDSS_" + axis in crt.value && origin.Some?
    ensures r.Ok? ==> r.value == CryoPos(steel, axis).value + crt.value["CRTSurveyOrigin_" + axis]
                                 + crt.value["BeamSpotDSS_" + axis] + origin.value
  {
    var p :- CryoPos(steel, axis);
    var o :- Get(crt, "CRTSurveyOrigin_" + axis);
    var b :- Get(crt, "BeamSpotDSS_" + axis);
    if origin.None? then Err(TypeError("unsupported operand type(s) for +"))
    else Ok(p + o + b + origin.value)
  }

  /** The beam spot, set one coordinate at a time; a failure keeps the
      coordinates already set. */
  function BeamOutcome(s: CrtState): (o: (Result<()>, CrtState))
    ensures o.1.(beam := s.beam) == s
  {
    match BeamAt(s.crt, s.steel, "x", s.origin.0)
    case Err(f) => (Err(f), s)
    case Ok(bx) =>
      match BeamAt(s.crt, s.steel, "y", s.origin.1)
      case Err(f) => (Err(f), s.(beam := (Some(bx), s.beam.1, s.beam.2)))
      case Ok(beamY) =>
        match BeamAt(s.crt, s.steel, "z", s.origin.2)
        case Err(f) => (Err(f), s.(beam := (Some(bx), Some(beamY), s.beam.2)))
        case Ok(bz) => (Ok(()), s.(beam := (Some(bx), Some(beamY), Some(bz))))
  }

  /** calculate_positions: the lists are reset, the downstream table then
      the upstream table is processed, then the beam spot is set; a failure
      keeps what was written before it. */
  function CalculateOutcome(s: CrtState): (o: (Result<()>, CrtState))
    ensures o.0.Ok? ==> |o.1.ds| == 16 && |o.1.us| == 16
  {
    var (r1, ds) := EntriesPrefix(s.crt, s.steel, Configs("DS"), 16);
    if r1.Err? then (r1, s.(ds := ds, us := []))
    else
      var (r2, us) := EntriesPrefix(s.crt, s.steel, Configs("US"), 16);
      if r2.Err? then (r2, s.(ds := ds, us := us))
      else BeamOutcome(s.(ds := ds, us := us))
  }

  /** Python truthiness of an optional dictionary: present and not empty. */
  predicate Truthy<K, V>(d: Option<map<K, V>>)
  {
    d.Some? && |d.value| > 0
  }

  /** configure: a second call returns at once; truthy dictionaries replace
      the stored ones; the origins and switches are stored as given. */
  function ConfigureState(s: CrtState, crt: Option<map<string, real>>, steel: Option<map<string, map<string, real>>>,
                          origin: (Option<real>, Option<real>, Option<real>), dp: bool, hd: bool): CrtState
  {
    if s.configured then s
    else
      s.(crt := if Truthy(crt) then crt else s.crt,
         steel := if Truthy(steel) then steel else s.steel,
         origin := origin, dpSwitch := dp, hdSwitch := hd, configured := true)
  }

  /** The placements of one side's modules: module i + 1 at entry i. */
  function ModulePlacement(side: string, es: seq<CrtEntry>, i: nat): Placement
    requires i < |es|
  {
    Placement("placeAuxDet_CRTModule_" + side + NatToString(i + 1), "volAuxDet_CRTModule_" + side + NatToString(i + 1),
              es[i].pos, es[i].rot)
  }

  function ModulePlacements(side: string, es: seq<CrtEntry>, n: nat): (r: seq<Placement>)
    requires n <= |es|
    ensures |r| == n
    ensures forall i :: 0 <= i < n ==> r[i] == ModulePlacement(side, es, i)
  {
    if n == 0 then [] else ModulePlacements(side, es, n - 1) + [ModulePlacement(side, es, n - 1)]
  }

  /** The two dual-phase modules, at fixed positions (cm). */
  const DpPlacements: seq<Placement> :=
    [Placement("placeCRTDPTOP", "volAuxDetCRTDPModuleTop", Vec3(384.8, 588.2, 0.0), "rIdentity"),
     Placement("placeCRTDPBOTTOM", "volAuxDetCRTDPModuleBottom", Vec3(-440.6, -588.2, 0.0), "rIdentity")]

  /** place_in_volume: positions are recalculated; with the HD switch the 16
      upstream then the 16 downstream modules are placed, then with the DP
      switch the two dual-phase modules. */
  function PlaceOutcome(s: CrtState): (Result<seq<Placement>>, CrtState)
  {
    var (r, t) := CalculateOutcome(s);
    if r.Err? then (Err(r.failure), t)
    else
      (Ok((if t.hdSwitch then ModulePlacements("U", t.us, 16) + ModulePlacements("D", t.ds, 16) else [])
          + (if t.dpSwitch then DpPlacements else [])), t)
  }

  // ---------------------------------------------------------------------------
  // Properties

  lemma TableIndices(side: string)
    ensures |Configs(side)| == 16
    ensures forall i :: 0 <= i < 16 ==> Configs(side)[i].idx == i && Configs(side)[i].mods.2 == 1
  {
  }

  /** In quadrant q, rows 4q and 4q + 1 are flat and differ only in the x
      sign, rows 4q + 2 and 4q + 3 are upright and differ only in the y
      sign. */
  lemma QuadrantShape(side: string, q: nat)
    requires q < 4
    ensures var t := Configs(side);
            |t| == 16
            && t[4 * q].base == t[4 * q + 1].base && t[4 * q].zPos == t[4 * q + 1].zPos
            && t[4 * q].rot == t[4 * q + 1].rot == Flat
            && t[4 * q].mods.1 == t[4 * q + 1].mods.1 && t[4 * q].mods.0 == -1 && t[4 * q + 1].mods.0 == 1
            && t[4 * q + 2].base == t[4 * q + 3].base && t[4 * q + 2].zPos == t[4 * q + 3].zPos
            && t[4 * q + 2].rot == t[4 * q + 3].rot == Upright
            && t[4 * q + 2].mods.0 == t[4 * q + 3].mods.0 && t[4 * q + 2].mods.1 == -1 && t[4 * q + 3].mods.1 == 1
            && t[4 * q].mods.2 == t[4 * q + 1].mods.2 == t[4 * q + 2].mods.2 == t[4 * q + 3].mods.2 == 1
            && t[4 * q].idx == 4 * q && t[4 * q + 1].idx == 4 * q + 1
            && t[4 * q + 2].idx == 4 * q + 2 && t[4 * q + 3].idx == 4 * q + 3
  {
    if q == 0 {
    } else if q == 1 {
    } else if q == 2 {
    } else {
    }
  }

  /** The upstream table is the downstream one with "US" for "DS". */
  lemma UpstreamMirrorsDownstream(i: nat)
    requires i < 16
    ensures var d, u := Configs("DS")[i], Configs("US")[i];
            u.mods == d.mods && u.rot == d.rot && u.idx == d.idx
            && u.base == "US" + d.base[2..] && u.zPos == "US" + d.zPos[2..]
  {
  }

  /** After n successful rows, entry j is row j's position and rotation. */
  lemma {:induction false} EntriesAt(crt: Table, steel: Steel, cfgs: seq<ModuleConfig>, n: nat, j: nat)
    requires n <= |cfgs| && j < n && EntriesPrefix(crt, steel, cfgs, n).0.Ok?
    ensures EntryAt(crt, steel, cfgs[j]).Ok?
    ensures EntriesPrefix(crt, steel, cfgs, n).1[j] == CrtEntry(EntryAt(crt, steel, cfgs[j]).value, cfgs[j].rot)
  {
    if j < n - 1 {
      EntriesAt(crt, steel, cfgs, n - 1, j);
    }
  }

  /** Once a row fails, later rows change nothing. */
  lemma {:induction false} EntriesStayFailed(crt: Table, steel: Steel, cfgs: seq<ModuleConfig>, m: nat, n: nat)
    requires m <= n <= |cfgs| && EntriesPrefix(crt, steel, cfgs, m).0.Err?
    ensures EntriesPrefix(crt, steel, cfgs, n) == EntriesPrefix(crt, steel, cfgs, m)
    decreases n
  {
    if m < n {
      EntriesStayFailed(crt, steel, cfgs, m, n - 1);
    }
  }

  /** A successful calculation gives 16 downstream and 16 upstream entries,
      entry i of each being row i of its table. */
  lemma CalculatedEntries(s: CrtState, i: nat)
    requires CalculateOutcome(s).0.Ok? && i < 16
    ensures var t := CalculateOutcome(s).1;
            var d, u := Configs("DS")[i], Configs("US")[i];
            |t.ds| == 16 && |t.us| == 16
            && EntryAt(s.crt, s.steel, d).Ok? && t.ds[i] == CrtEntry(EntryAt(s.crt, s.steel, d).value, d.rot)
            && EntryAt(s.crt, s.steel, u).Ok? && t.us[i] == CrtEntry(EntryAt(s.crt, s.steel, u).value, u.rot)
  {
    EntriesAt(s.crt, s.steel, Configs("DS"), 16, i);
    EntriesAt(s.crt, s.steel, Configs("US"), 16, i);
  }

  /** The module spacing along x is ModuleLongCorr exactly for the upright
      rows (index mod 4 in {2, 3}) and along y exactly for the flat ones; so
      each module is offset by ModuleLongCorr along one axis and by
      ModuleSMDist along the other. */
  lemma SpacingOnOneAxis(side: string, i: nat)
    requires i < 16
    ensures var c := Configs(side)[i];
            (XSpacing(c.idx) == "ModuleLongCorr" <==> c.rot == Upright)
            && (YSpacing(c.idx) == "ModuleLongCorr" <==> c.rot == Flat)
            && {XSpacing(c.idx), YSpacing(c.idx)} == {"ModuleLongCorr", "ModuleSMDist"}
  {
    QuadrantShape(side, i / 4);
  }

  /** Two modules on the same base, one at sign -1 and one at sign +1,
      are twice the spacing apart along the axis. */
  lemma OppositeSigns(crt: Table, steel: Steel, axis: string, base: string, spacing: string)
    requires AxisAt(crt, steel, axis, base, spacing, -1).Ok? && AxisAt(crt, steel, axis, base, spacing, 1).Ok?
    ensures crt.Some? && spacing in crt.value
    ensures AxisAt(crt, steel, axis, base, spacing, 1).value - AxisAt(crt, steel, axis, base, spacing, -1).value
            == 2.0 * crt.value[spacing]
  {
  }

  /** The two flat modules of quadrant q lie side by side along x,
      2 * ModuleSMDist apart, at the same y and z. */
  lemma FlatPairSideBySide(crt: Table, steel: Steel, side: string, q: nat)
    requires q < 4
    requires EntryAt(crt, steel, Configs(side)[4 * q]).Ok? && EntryAt(crt, steel, Configs(side)[4 * q + 1]).Ok?
    ensures var a, b := EntryAt(crt, steel, Configs(side)[4 * q]).value, EntryAt(crt, steel, Configs(side)[4 * q + 1]).value;
            crt.Some? && "ModuleSMDist" in crt.value
            && b.x - a.x == 2.0 * crt.value["ModuleSMDist"] && b.y == a.y && b.z == a.z
  {
    QuadrantShape(side, q);
    var c, d := Configs(side)[4 * q], Configs(side)[4 * q + 1];
    assert XSpacing(c.idx) == XSpacing(d.idx) == "ModuleSMDist";
    assert YSpacing(c.idx) == YSpacing(d.idx);
    FlatPair(crt, steel, c, d);
  }

  /** Two rows on the same base and z entry, with x signs -1 and +1 and a
      shared y spacing, give positions ModuleSMDist either side along x. */
  lemma FlatPair(crt: Table, steel: Steel, c: ModuleConfig, d: ModuleConfig)
    requires c.base == d.base && c.zPos == d.zPos && c.mods.1 == d.mods.1 && c.mods.2 == d.mods.2
    requires c.mods.0 == -1 && d.mods.0 == 1
    requires XSpacing(c.idx) == XSpacing(d.idx) == "ModuleSMDist" && YSpacing(c.idx) == YSpacing(d.idx)
    requires EntryAt(crt, steel, c).Ok? && EntryAt(crt, steel, d).Ok?
    ensures var a, b := EntryAt(crt, steel, c).value, EntryAt(crt, steel, d).value;
            crt.Some? && "ModuleSMDist" in crt.value
            && b.x - a.x == 2.0 * crt.value["ModuleSMDist"] && b.y == a.y && b.z == a.z
  {
    EntryParts(crt, steel, c);
    EntryParts(crt, steel, d);
    OppositeSigns(crt, steel, "x", c.base, "ModuleSMDist");
  }

  /** The two upright modules of quadrant q lie side by side along y,
      2 * ModuleSMDist apart, at the same x and z. */
  lemma UprightPairSideBySide(crt: Table, steel: Steel, side: string, q: nat)
    requires q < 4
    requires EntryAt(crt, steel, Configs(side)[4 * q + 2]).Ok? && EntryAt(crt, steel, Configs(side)[4 * q + 3]).Ok?
    ensures var a, b := EntryAt(crt, steel, Configs(side)[4 * q + 2]).value, EntryAt(crt, steel, Configs(side)[4 * q + 3]).value;
            crt.Some? && "ModuleSMDist" in crt.value
            && b.y - a.y == 2.0 * crt.value["ModuleSMDist"] && b.x == a.x && b.z == a.z
  {
    QuadrantShape(side, q);
    var c, d := Configs(side)[4 * q + 2], Configs(side)[4 * q + 3];
    assert YSpacing(c.idx) == YSpacing(d.idx) == "ModuleSMDist";
    assert XSpacing(c.idx) == XSpacing(d.idx);
    UprightPair(crt, steel, c, d);
  }

  /** Two rows on the same base and z entry, with y signs -1 and +1 and a
      shared x spacing, give positions ModuleSMDist either side along y. */
  lemma UprightPair(crt: Table, steel: Steel, c: ModuleConfig, d: ModuleConfig)
    requires c.base == d.base && c.zPos == d.zPos && c.mods.0 == d.mods.0 && c.mods.2 == d.mods.2
    requires c.mods.1 == -1 && d.mods.1 == 1
    requires YSpacing(c.idx) == YSpacing(d.idx) == "ModuleSMDist" && XSpacing(c.idx) == XSpacing(d.idx)
    requires EntryAt(crt, steel, c).Ok? && EntryAt(crt, steel, d).Ok?
    ensures var a, b := EntryAt(crt, steel, c).value, EntryAt(crt, steel, d).value;
            crt.Some? && "ModuleSMDist" in crt.value
            && b.y - a.y == 2.0 * crt.value["ModuleSMDist"] && b.x == a.x && b.z == a.z
  {
    EntryParts(crt, steel, c);
    EntryParts(crt, steel, d);
    OppositeSigns(crt, steel, "y", c.base, "ModuleSMDist");
  }

  /** Every module's z is the survey origin plus its z entry plus one module
      offset. */
  lemma ZOffset(crt: Table, steel: Steel, side: string, i: nat)
    requires i < 16 && EntryAt(crt, steel, Configs(side)[i]).Ok?
    ensures var c := Configs(side)[i];
            crt.Some? && "CRTSurveyOrigin_z" in crt.value && "CRT_" + c.zPos + "_z" in crt.value
            && "ModuleOff_z" in crt.value
            && EntryAt(crt, steel, c).value.z
               == crt.value["CRTSurveyOrigin_z"] + crt.value["CRT_" + c.zPos + "_z"] + crt.value["ModuleOff_z"]
  {
    EntryParts(crt, steel, Configs(side)[i]);
    TableIndices(side);
  }

  /** A successful calculation sets every beam spot coordinate, each from
      the configured origin of its axis, which must therefore be set. */
  lemma BeamSpotSet(s: CrtState)
    requires CalculateOutcome(s).0.Ok?
    ensures var b := CalculateOutcome(s).1.beam;
            s.origin.0.Some? && s.origin.1.Some? && s.origin.2.Some?
            && b == (Some(BeamAt(s.crt, s.steel, "x", s.origin.0).value),
                     Some(BeamAt(s.crt, s.steel, "y", s.origin.1).value),
                     Some(BeamAt(s.crt, s.steel, "z", s.origin.2).value))
  {
  }

  /** A failed calculation leaves the lists holding the entries computed
      for the rows before the failing row, which is the row right after
      them, and sets no beam spot coordinate past the failing one. */
  lemma CalculateFailure(s: CrtState)
    requires CalculateOutcome(s).0.Err?
    ensures var (r, t) := CalculateOutcome(s);
            |t.ds| <= 16 && |t.us| <= 16 && (|t.ds| < 16 ==> t.us == [])
            && Kept(s.crt, s.steel, Configs("DS"), t.ds) && Kept(s.crt, s.steel, Configs("US"), t.us)
            && (|t.ds| < 16 ==> EntryAt(s.crt, s.steel, Configs("DS")[|t.ds|]) == Err(r.failure))
            && (|t.ds| == 16 && |t.us| < 16 ==> EntryAt(s.crt, s.steel, Configs("US")[|t.us|]) == Err(r.failure))
            && (t.beam != s.beam ==> |t.ds| == 16 && |t.us| == 16 && t.beam.2 == s.beam.2)
  {
    var o := CalculateOutcome(s);
    var ds := EntriesPrefix(s.crt, s.steel, Configs("DS"), 16);
    var us := EntriesPrefix(s.crt, s.steel, Configs("US"), 16);
    if ds.0.Ok? && us.0.Ok? {
      var s2 := s.(ds := ds.1, us := us.1);
      assert o == BeamOutcome(s2);
      BeamFailure(s2);
    } else {
      assert o.1.beam == s.beam;
    }
    ListsOnFailure(s.crt, s.steel, Configs("DS"), Configs("US"), o.0, o.1.ds, o.1.us);
  }

  /** A failed beam spot calculation never sets the last coordinate. */
  lemma BeamFailure(s: CrtState)
    requires BeamOutcome(s).0.Err?
    ensures BeamOutcome(s).1.beam.2 == s.beam.2
  {
  }

  /** The list part of a failed calculation, for any two tables of rows:
      each list keeps the entries of the rows before its failing row. */
  lemma ListsOnFailure(crt: Table, steel: Steel, cd: seq<ModuleConfig>, cu: seq<ModuleConfig>,
                       r: Result<()>, tds: seq<CrtEntry>, tus: seq<CrtEntry>)
    requires |cd| == 16 && |cu| == 16
    requires var ds, us := EntriesPrefix(crt, steel, cd, 16), EntriesPrefix(crt, steel, cu, 16);
             tds == ds.1 && (ds.0.Err? ==> r == ds.0 && tus == [])
             && (ds.0.Ok? ==> tus == us.1 && (us.0.Err? ==> r == us.0))
    ensures |tds| <= 16 && |tus| <= 16 && (|tds| < 16 ==> tus == [])
            && Kept(crt, steel, cd, tds) && Kept(crt, steel, cu, tus)
            && (|tds| < 16 ==> r.Err? && EntryAt(crt, steel, cd[|tds|]) == Err(r.failure))
            && (|tds| == 16 && |tus| < 16 ==> r.Err? && EntryAt(crt, steel, cu[|tus|]) == Err(r.failure))
  {
    EntriesKept(crt, steel, cd, 16);
    EntriesKept(crt, steel, cu, 16);
  }

  /** Entry j of `es` is what row j of the table computes, for every j. */
  predicate Kept(crt: Table, steel: Steel, cfgs: seq<ModuleConfig>, es: seq<CrtEntry>)
  {
    |es| <= |cfgs| &&
    forall j :: 0 <= j < |es| ==> EntryAt(crt, steel, cfgs[j]).Ok? && es[j] == CrtEntry(EntryAt(crt, steel, cfgs[j]).value, cfgs[j].rot)
  }

  /** The rows processed keep their computed entries; a failure comes from
      the row right after them. */
  lemma {:induction false} EntriesKept(crt: Table, steel: Steel, cfgs: seq<ModuleConfig>, n: nat)
    requires n <= |cfgs|
    ensures |EntriesPrefix(crt, steel, cfgs, n).1| <= n && Kept(crt, steel, cfgs, EntriesPrefix(crt, steel, cfgs, n).1)
    ensures EntriesPrefix(crt, steel, cfgs, n).0.Err? ==>
              |EntriesPrefix(crt, steel, cfgs, n).1| < n
              && EntryAt(crt, steel, cfgs[|EntriesPrefix(crt, steel, cfgs, n).1|]) == Err(EntriesPrefix(crt, steel, cfgs, n).0.failure)
  {
    if n > 0 {
      EntriesKept(crt, steel, cfgs, n - 1);
      var prev := EntriesPrefix(crt, steel, cfgs, n - 1);
      if prev.0.Ok? {
        var v := EntryAt(crt, steel, cfgs[n - 1]);
        if v.Ok? {
          KeptSnoc(crt, steel, cfgs, prev.1, v.value);
        }
      }
    }
  }

  /** Appending the next row's computed entry keeps the entries kept. */
  lemma KeptSnoc(crt: Table, steel: Steel, cfgs: seq<ModuleConfig>, es: seq<CrtEntry>, v: Vec3)
    requires Kept(crt, steel, cfgs, es) && |es| < |cfgs| && EntryAt(crt, steel, cfgs[|es|]) == Ok(v)
    ensures Kept(crt, steel, cfgs, es + [CrtEntry(v, cfgs[|es|].rot)])
  {
  }

  lemma {:induction false} EntriesLength(crt: Table, steel: Steel, cfgs: seq<ModuleConfig>, n: nat)
    requires n <= |cfgs|
    ensures |EntriesPrefix(crt, steel, cfgs, n).1| <= n
    ensures EntriesPrefix(crt, steel, cfgs, n).0.Err? ==> |EntriesPrefix(crt, steel, cfgs, n).1| < n
  {
    if n > 0 {
      EntriesLength(crt, steel, cfgs, n - 1);
    }
  }

  /** A second configure changes nothing. */
  lemma ConfigureOnce(s: CrtState, crt: Table, steel: Steel, origin: (Option<real>, Option<real>, Option<real>),
                      dp: bool, hd: bool, crt2: Table, steel2: Steel,
                      origin2: (Option<real>, Option<real>, Option<real>), dp2: bool, hd2: bool)
    ensures var t := ConfigureState(s, crt, steel, origin, dp, hd);
            t.configured && ConfigureState(t, crt2, steel2, origin2, dp2, hd2) == t
  {
  }

  /** With the HD switch, place_in_volume places 32 modules, upstream module
      i + 1 at upstream entry i first, then the downstream ones; with the DP
      switch the two dual-phase modules follow. */
  lemma PlacedModules(s: CrtState, i: nat)
    requires PlaceOutcome(s).0.Ok? && i < 16
    ensures var (r, t) := PlaceOutcome(s);
            var hd := if t.hdSwitch then 32 else 0;
            |t.us| == 16 && |t.ds| == 16
            && |r.value| == hd + (if t.dpSwitch then 2 else 0)
            && (t.hdSwitch ==> r.value[i] == ModulePlacement("U", t.us, i) && r.value[16 + i] == ModulePlacement("D", t.ds, i))
            && (t.dpSwitch ==> r.value[hd..] == DpPlacements)
  {
    CalculatedEntries(s, i);
  }

  /** place_in_volume's 32 HD placements, upstream then downstream. */
  method PlaceHdModules(us: seq<CrtEntry>, ds: seq<CrtEntry>) returns (placed: seq<Placement>)
    requires |us| == 16 && |ds| == 16
    ensures placed == ModulePlacements("U", us, 16) + ModulePlacements("D", ds, 16)
  {
    placed := [];
    for i := 0 to 16
      invariant placed == ModulePlacements("U", us, i)
    {
      placed := placed + [ModulePlacement("U", us, i)];
    }
    for i := 0 to 16
      invariant placed == ModulePlacements("U", us, 16) + ModulePlacements("D", ds, i)
    {
      placed := placed + [ModulePlacement("D", ds, i)];
    }
  }

  /** One table's loop: each row's position is computed and its entry
      appended. */
  method ProcessTable(crt: Table, steel: Steel, cfgs: seq<ModuleConfig>) returns (r: Result<()>, es: seq<CrtEntry>)
    ensures (r, es) == EntriesPrefix(crt, steel, cfgs, |cfgs|)
  {
    es := [];
    for i := 0 to |cfgs|
      invariant EntriesPrefix(crt, steel, cfgs, i) == (Ok(()), es)
    {
      var v := EntryAt(crt, steel, cfgs[i]);
      if v.Err? {
        EntriesStayFailed(crt, steel, cfgs, i + 1, |cfgs|);
        return Err(v.failure), es;
      }
      es := es + [CrtEntry(v.value, cfgs[i].rot)];
    }
    r := Ok(());
  }

  // ---------------------------------------------------------------------------
  // The builder

  class CrtBuilder {
    var crt: Table
    var steel: Steel
    var origin: (Option<real>, Option<real>, Option<real>)
    var dpSwitch: bool
    var hdSwitch: bool
    var configured: bool
    var ds: seq<CrtEntry>
    var us: seq<CrtEntry>
    var beam: (Option<real>, Option<real>, Option<real>)

    function State(): CrtState
      reads this
    {
      CrtState(crt, steel, origin, dpSwitch, hdSwitch, configured, ds, us, beam)
    }

    /** __init__: everything None. */
    constructor ()
      ensures State() == CrtState(None, None, (None, None, None), false, false, false, [], [], (None, None, None))
    {
      crt, steel := None, None;
      origin := (None, None, None);
      dpSwitch, hdSwitch, configured := false, false, false;
      ds, us := [], [];
      beam := (None, None, None);
    }

    /** configure; the print flags and extra keywords are not modelled. */
    method Configure(crtParams: Table, steelParams: Steel, ox: Option<real>, oy: Option<real>, oz: Option<real>,
                     dp: bool, hd: bool)
      modifies this
      ensures State() == ConfigureState(old(State()), crtParams, steelParams, (ox, oy, oz), dp, hd)
    {
      if !configured {
        crt := if Truthy(crtParams) then crtParams else crt;
        steel := if Truthy(steelParams) then steelParams else steel;
        origin, dpSwitch, hdSwitch, configured := (ox, oy, oz), dp, hd, true;
      }
    }

    /** The beam spot part of calculate_positions. */
    method SetBeamSpot() returns (r: Result<()>)
      modifies this
      ensures (r, State()) == BeamOutcome(old(State()))
    {
      var bx := BeamAt(crt, steel, "x", origin.0);
      if bx.Err? {
        return Err(bx.failure);
      }
      beam := (Some(bx.value), beam.1, beam.2);
      var spotY := BeamAt(crt, steel, "y", origin.1);
      if spotY.Err? {
        return Err(spotY.failure);
      }
      beam := (beam.0, Some(spotY.value), beam.2);
      var bz := BeamAt(crt, steel, "z", origin.2);
      if bz.Err? {
        return Err(bz.failure);
      }
      beam := (beam.0, beam.1, Some(bz.value));
      r := Ok(());
    }

    /** calculate_positions. */
    method CalculatePositions() returns (r: Result<()>)
      modifies this
      ensures (r, State()) == CalculateOutcome(old(State()))
    {
      ds, us := [], [];
      r, ds := ProcessTable(crt, steel, Configs("DS"));
      if r.Err? {
        return;
      }
      r, us := ProcessTable(crt, steel, Configs("US"));
      if r.Err? {
        return;
      }
      r := SetBeamSpot();
    }

    /** place_in_volume: the placements appended to the enclosure volume. */
    method PlaceInVolume() returns (r: Result<seq<Placement>>)
      modifies this
      ensures (r, State()) == PlaceOutcome(old(State()))
    {
      ghost var s := State();
      var c := CalculatePositions();
      if c.Err? {
        return Err(c.failure);
      }
      assert (c, State()) == CalculateOutcome(s);
      var placed: seq<Placement> := [];
      if hdSwitch {
        placed := PlaceHdModules(us, ds);
      }
      if dpSwitch {
        placed := placed + DpPlacements;
      }
      assert placed == (if hdSwitch then ModulePlacements("U", us, 16) + ModulePlacements("D", ds, 16) else [])
          + (if dpSwitch then DpPlacements else []);
      r := Ok(placed);
    }
  }
}
