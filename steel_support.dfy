/** The ProtoDUNE-VD steel support builder (protodunevd/steelsupport.py):
    three support volumes, each a 5-by-5 grid of central units framed by a
    row of edge units on each of its four sides, and the six placements of
    those volumes around the cryostat. */
module SteelSupport {
  import opened Wrappers
  import opened Strings
  import opened Placements
  import opened Shapes

  // ---------------------------------------------------------------------------
  // The support volumes

  /** The rotation of an edge unit: none, a predefined rotation, or one
      made per unit, named by a prefix and the unit's index, with its
      angles about x, y and z. */
  datatype EdgeRot = Plain | Named(rot: string) | Angles(prefix: string, ax: string, ay: string, az: string)

  /** One side's edge units: the side's tag, the unit volume, whether the
      side is at a fixed x (east and west) or at a fixed y (south and
      north), that fixed coordinate (cm), and the units' rotation. */
  datatype Edge = Edge(tag: string, volume: string, fixedX: bool, at: real, rot: EdgeRot)

  /** A support volume: the tag its placement names carry, its volume and
      box (full lengths, cm), the number of central units on a side of its
      grid, the rotation of every central unit, and its four sides in
      placement order east, south, west, north. */
  datatype Support = Support(tag: string, volume: string, box: string, lx: real, ly: real, lz: real, units: nat,
                             centralRot: string, east: Edge, south: Edge, west: Edge, north: Edge)

  const CentralUnit: string := "volUnitCent"
  const TopUnit: string := "volUnitTop"
  const ShortWallUnit: string := "volUnitWallS"
  const LongWallUnit: string := "volUnitWallL"

  /** construct_TB: the top and bottom support. */
  const TopBottom: Support :=
    Support("TB", "volSteelSupport_TB", "boxCryoTop", 1016.8, 1016.8, 61.8, 5, NoRot,
            Edge("E", TopUnit, true, 454.2, Plain),
            Edge("S", TopUnit, false, 454.2, Angles("rotUnitTBS_", "0deg", "0deg", "-90deg")),
            Edge("W", TopUnit, true, -454.2, Angles("rotUnitTBW_", "0deg", "0deg", "-180deg")),
            Edge("N", TopUnit, false, -454.2, Angles("rotUnitTBN_", "0deg", "0deg", "-270deg")))

  /** construct_US: the upstream support, every central unit turned about y. */
  const Upstream: Support :=
    Support("US", "volSteelSupport_US", "boxCryoWallSm", 1016.8, 1075.6, 61.8, 5, "rPlus180AboutY",
            Edge("E", TopUnit, true, 454.2, Named("rPlus180AboutX")),
            Edge("S", ShortWallUnit, false, 468.9, Angles("rotUnitUSS_", "0deg", "180deg", "-90deg")),
            Edge("W", TopUnit, true, -454.2, Angles("rotUnitUSW_", "180deg", "0deg", "-180deg")),
            Edge("N", ShortWallUnit, false, -468.9, Angles("rotUnitUSN_", "0deg", "180deg", "-270deg")))

  /** construct_LR: the left and right support. */
  const LeftRight: Support :=
    Support("LR", "volSteelSupport_LR", "boxCryoWallLg", 1140.4, 1075.6, 61.8, 5, NoRot,
            Edge("E", LongWallUnit, true, 485.1, Plain),
            Edge("S", ShortWallUnit, false, 468.9, Angles("rotUnitLRS_", "0deg", "0deg", "-90deg")),
            Edge("W", LongWallUnit, true, -485.1, Angles("rotUnitLRW_", "0deg", "0deg", "-180deg")),
            Edge("N", ShortWallUnit, false, -468.9, Angles("rotUnitLRN_", "0deg", "0deg", "-270deg")))

  /** The x extent of each unit's outer box (cm), as construct_unit_volumes
      sizes them; every unit is 160 cm in y. */
  function UnitWidth(volume: string): real
  {
    if volume == CentralUnit then 160.0
    else if volume == TopUnit then 108.4
    else if volume == LongWallUnit then 170.2
    else 137.8
  }

  /** Column or row i of the central grid: -320 cm + 160 cm i. */
  function GridCoord(i: nat): real
  {
    (-320 + 160 * i) as real
  }

  function RotName(r: EdgeRot, i: nat): string
  {
    match r
    case Plain => NoRot
    case Named(name) => name
    case Angles(prefix, _, _, _) => prefix + NatToString(i)
  }

  function SupportVolume(s: Support): Volume
  {
    Volume(s.volume, "Air", Box(s.box, s.lx / 2.0, s.ly / 2.0, s.lz / 2.0), [])
  }

  function CentralPlacement(s: Support, i: nat, j: nat): Placement
  {
    Placement("volUnit" + s.tag + "Cent_" + NatToString(i) + "-" + NatToString(j), CentralUnit,
              Vec3(GridCoord(i), GridCoord(j), 0.0), s.centralRot)
  }

  function CentralCells(s: Support): (nat, nat) -> seq<Placement>
  {
    (i: nat, j: nat) => [CentralPlacement(s, i, j)]
  }

  /** Edge unit i of a side: at the side's fixed coordinate, and along the
      side at the grid's row or column i. */
  function EdgePlacement(s: Support, e: Edge, i: nat): Placement
  {
    Placement("volUnit" + s.tag + e.tag + "_" + NatToString(i), e.volume,
              if e.fixedX then Vec3(e.at, GridCoord(i), 0.0) else Vec3(GridCoord(i), e.at, 0.0),
              RotName(e.rot, i))
  }

  /** Step i of the edge loop: east, south, west and north. */
  function EdgeGroup(s: Support, i: nat): seq<Placement>
  {
    [EdgePlacement(s, s.east, i), EdgePlacement(s, s.south, i), EdgePlacement(s, s.west, i), EdgePlacement(s, s.north, i)]
  }

  function EdgeGroups(s: Support): nat -> seq<Placement>
  {
    (i: nat) => EdgeGroup(s, i)
  }

  /** What a support's construct places for an n-by-n central grid: the
      grid row by row, then the edge units four at a time. */
  function SupportPlacements(s: Support, n: nat): seq<Placement>
  {
    Grid(CentralCells(s), n, n) + Flatten(EdgeGroups(s), n)
  }

  /** The side with placement order k (0 east, 1 south, 2 west, 3 north). */
  function Side(s: Support, k: nat): Edge
    requires k < 4
  {
    if k == 0 then s.east else if k == 1 then s.south else if k == 2 then s.west else s.north
  }

  lemma CentralLengths(s: Support, n: nat)
    ensures forall r: nat, c: nat :: r < n && c < n ==> |CentralCells(s)(r, c)| == 1
  {
    forall r: nat, c: nat | r < n && c < n
      ensures |CentralCells(s)(r, c)| == 1
    {
      assert CentralCells(s)(r, c) == [CentralPlacement(s, r, c)];
    }
  }

  lemma EdgeLengths(s: Support, n: nat)
    ensures forall i :: 0 <= i < n ==> |EdgeGroups(s)(i)| == 4
  {
    forall i | 0 <= i < n
      ensures |EdgeGroups(s)(i)| == 4
    {
      assert EdgeGroups(s)(i) == EdgeGroup(s, i);
    }
  }

  /** n n central units, then 4 edge units for each of the n rows: 45
      for the 5-by-5 grid. */
  lemma SupportCount(s: Support, n: nat)
    ensures |Grid(CentralCells(s), n, n)| == n * n
    ensures |SupportPlacements(s, n)| == n * n + 4 * n
  {
    CentralLengths(s, n);
    GridLength(CentralCells(s), n, n, 1);
    EdgeLengths(s, n);
    FlattenLength(EdgeGroups(s), n, 4);
  }

  /** Central unit (i, j) is entry n i + j, at grid row i and column j. */
  lemma CentralAt(s: Support, n: nat, i: nat, j: nat)
    requires i < n && j < n
    ensures var k := CellIndex(i, n, j);
            k < |SupportPlacements(s, n)| && SupportPlacements(s, n)[k] == CentralPlacement(s, i, j)
            && SupportPlacements(s, n)[k].pos == Vec3(GridCoord(i), GridCoord(j), 0.0)
  {
    CentralLengths(s, n);
    GridAt(CentralCells(s), n, n, 1, i, j, 0);
    assert (i * n + j) * 1 + 0 == CellIndex(i, n, j);
  }

  /** Edge unit i of side k is entry n n + 4 i + k. */
  lemma EdgeAt(s: Support, n: nat, i: nat, k: nat)
    requires i < n && k < 4
    ensures n * n + (4 * i + k) < |SupportPlacements(s, n)|
            && SupportPlacements(s, n)[n * n + (4 * i + k)] == EdgePlacement(s, Side(s, k), i)
  {
    SupportCount(s, n);
    EdgeLengths(s, n);
    FlattenAtAfter(Grid(CentralCells(s), n, n), EdgeGroups(s), n, 4, i, k);
    assert i * 4 == 4 * i;
    EdgeGroupAt(s, i, k);
  }

  lemma EdgeGroupAt(s: Support, i: nat, k: nat)
    requires k < 4
    ensures |EdgeGroups(s)(i)| == 4 && EdgeGroups(s)(i)[k] == EdgePlacement(s, Side(s, k), i)
  {
    assert EdgeGroups(s)(i) == EdgeGroup(s, i);
  }

  /** The central grid is centred and evenly spaced: 160 cm, the width of
      a central unit, between neighbours, and mirrored about 0. */
  lemma GridCentred(i: nat)
    requires i < 5
    ensures GridCoord(4 - i) == -GridCoord(i)
    ensures i < 4 ==> GridCoord(i + 1) - GridCoord(i) == UnitWidth(CentralUnit)
  {
  }

  /** In each of the three supports every side's units lie flush against
      the central grid, whose half extent is 400 cm, and their outer faces
      lie on the support's box; opposite sides mirror each other. */
  lemma EdgesFrameGrid(s: Support, k: nat)
    requires s == TopBottom || s == Upstream || s == LeftRight
    requires k < 4
    ensures var e := Side(s, k);
            var d := if e.at < 0.0 then -e.at else e.at;
            d - UnitWidth(e.volume) / 2.0 == 2.5 * UnitWidth(CentralUnit)
            && d + UnitWidth(e.volume) / 2.0 == (if e.fixedX then s.lx else s.ly) / 2.0
    ensures s.east.fixedX && s.west.fixedX && !s.south.fixedX && !s.north.fixedX
    ensures s.west.at == -s.east.at && s.north.at == -s.south.at
  {
  }

  /** One construct_TB/US/LR: the central grid, then the edge units. */
  method ConstructSupport(s: Support) returns (vol: Volume, placed: seq<Placement>)
    ensures vol == SupportVolume(s)
    ensures placed == SupportPlacements(s, s.units)
  {
    vol := Volume(s.volume, "Air", Box(s.box, s.lx / 2.0, s.ly / 2.0, s.lz / 2.0), []);
    var central := PlaceCentralGrid(s, s.units);
    var edges := PlaceEdgeUnits(s, s.units);
    placed := central + edges;
  }

  /** The nested loop over the central grid's rows and columns. */
  method PlaceCentralGrid(s: Support, n: nat) returns (placed: seq<Placement>)
    ensures placed == Grid(CentralCells(s), n, n)
  {
    placed := [];
    for i := 0 to n
      invariant placed == Grid(CentralCells(s), i, n)
    {
      var row := PlaceCentralRow(s, i, n);
      GridStep(CentralCells(s), n, i);
      placed := placed + row;
    }
  }

  /** The loop over rows placing the east, south, west and north units. */
  method PlaceEdgeUnits(s: Support, n: nat) returns (edges: seq<Placement>)
    ensures edges == Flatten(EdgeGroups(s), n)
  {
    edges := [];
    for i := 0 to n
      invariant edges == Flatten(EdgeGroups(s), i)
    {
      edges := edges + [EdgePlacement(s, s.east, i)];
      edges := edges + [EdgePlacement(s, s.south, i)];
      edges := edges + [EdgePlacement(s, s.west, i)];
      edges := edges + [EdgePlacement(s, s.north, i)];
      assert Flatten(EdgeGroups(s), i + 1) == Flatten(EdgeGroups(s), i) + EdgeGroup(s, i);
    }
  }

  method PlaceCentralRow(s: Support, i: nat, n: nat) returns (row: seq<Placement>)
    ensures row == Flatten(CellRow(CentralCells(s), i), n)
  {
    row := [];
    for j := 0 to n
      invariant row == Flatten(CellRow(CentralCells(s), i), j)
    {
      var place := Placement("volUnit" + s.tag + "Cent_" + NatToString(i) + "-" + NatToString(j), CentralUnit,
                             Vec3((-320 + i * 160) as real, (-320 + j * 160) as real, 0.0), s.centralRot);
      assert [place] == CentralCells(s)(i, j);
      RowStep(CentralCells(s), i, j);
      row := row + [place];
    }
  }

  // ---------------------------------------------------------------------------
  // Placing the supports

  /** One entry of place_in_volume's configuration list: the placement's
      name, the volume, the offset (cm) under whichever of the keys
      x_offset, y_offset, z_offset the entry has, the parameter the offset
      adds to, and the rotation's angles. */
  datatype Config = Config(name: string, volume: string, xOffset: Option<real>, yOffset: Option<real>,
                           zOffset: Option<real>, posParam: string, ax: string, ay: string, az: string)

  /** The six entries, in list order. */
  const Configs: seq<Config> := [
    Config("Top", "volSteelSupport_TB", None, Some(61.1), None, "posTopSteelStruct", "90deg", "0deg", "0deg"),
    Config("Bottom", "volSteelSupport_TB", None, Some(-61.1), None, "posBotSteelStruct", "-90deg", "0deg", "0deg"),
    Config("US", "volSteelSupport_US", None, None, Some(-31.1), "posZFrontSteelStruct", "0deg", "0deg", "0deg"),
    Config("DS", "volSteelSupport_US", None, None, Some(31.1), "posZBackSteelStruct", "0deg", "0deg", "0deg"),
    Config("LS", "volSteelSupport_LR", Some(65.1), None, None, "posLeftSteelStruct", "0deg", "-90deg", "0deg"),
    Config("RS", "volSteelSupport_LR", Some(-65.1), None, None, "posRightSteelStruct", "0deg", "90deg", "0deg")]

  /** A rotation is made only when some angle is not "0deg". */
  predicate Rotated(c: Config)
  {
    c.ax != "0deg" || c.ay != "0deg" || c.az != "0deg"
  }

  /** The position of one entry: the offset is looked for under y, then z,
      then x; the first one present sets that axis to the parameter plus
      the offset, and a parameter the dictionary lacks raises KeyError. */
  function ConfigPosition(params: map<string, real>, c: Config): Result<Vec3>
  {
    if c.yOffset.Some? then
      if c.posParam in params then Ok(Vec3(0.0, params[c.posParam] + c.yOffset.value, 0.0)) else Err(KeyError(c.posParam))
    else if c.zOffset.Some? then
      if c.posParam in params then Ok(Vec3(0.0, 0.0, params[c.posParam] + c.zOffset.value)) else Err(KeyError(c.posParam))
    else if c.xOffset.Some? then
      if c.posParam in params then Ok(Vec3(params[c.posParam] + c.xOffset.value, 0.0, 0.0)) else Err(KeyError(c.posParam))
    else Ok(Origin3)
  }

  function ConfigPlacement(params: map<string, real>, c: Config): Result<Placement>
  {
    var pos :- ConfigPosition(params, c);
    Ok(Placement("placeSteelSupport_" + c.name, c.volume, pos, if Rotated(c) then "rotSteelSupport_" + c.name else NoRot))
  }

  function ConfigStep(params: map<string, real>, cfgs: seq<Config>): nat -> Result<Placement>
  {
    (k: nat) => if k < |cfgs| then ConfigPlacement(params, cfgs[k]) else Err(IndexError)
  }

  /** place_in_volume: without a parameter dictionary the first lookup
      raises AttributeError; otherwise the entries in order, each appended
      before the next is looked at, up to the first missing parameter. */
  function PlaceOutcome(params: Option<map<string, real>>, cfgs: seq<Config>): (Result<()>, seq<Placement>)
  {
    if params.None? then (Err(AttributeError("params")), [])
    else Collect(ConfigStep(params.value, cfgs), |cfgs|)
  }

  /** Every entry has exactly one offset: under y for Top and Bottom,
      under z for US and DS, under x for LS and RS; the position moves
      along that axis alone, by the parameter plus the offset. */
  lemma OneAxisEach(params: map<string, real>, k: nat)
    requires k < |Configs|
    ensures var c := Configs[k];
            (c.yOffset.Some? <==> k < 2) && (c.zOffset.Some? <==> 2 <= k < 4) && (c.xOffset.Some? <==> 4 <= k)
    ensures var c := Configs[k];
            c.posParam in params ==> var p := ConfigPosition(params, c);
              p.Ok? && p.value.x == (if c.xOffset.Some? then params[c.posParam] + c.xOffset.value else 0.0)
              && p.value.y == (if c.yOffset.Some? then params[c.posParam] + c.yOffset.value else 0.0)
              && p.value.z == (if c.zOffset.Some? then params[c.posParam] + c.zOffset.value else 0.0)
  {
  }

  /** Only US and DS have all three angles "0deg", so only they are placed
      without a rotation. */
  lemma RotatedEntries(params: map<string, real>, k: nat)
    requires k < |Configs| && Configs[k].posParam in params
    ensures var p := ConfigPlacement(params, Configs[k]);
            p.Ok? && (p.value.rot == NoRot <==> k == 2 || k == 3)
            && (p.value.rot != NoRot ==> p.value.rot == "rotSteelSupport_" + Configs[k].name)
  {
  }

  /** With every entry's parameter present place_in_volume succeeds and
      places the entries in list order (for the six: Top, Bottom, US, DS,
      LS, RS). */
  lemma PlacedInOrder(params: map<string, real>, cfgs: seq<Config>, k: nat)
    requires forall c :: c in cfgs ==> c.posParam in params
    requires k < |cfgs|
    ensures var (r, placed) := PlaceOutcome(Some(params), cfgs);
            var c := cfgs[k];
            r.Ok? && |placed| == |cfgs| && ConfigPlacement(params, c).Ok?
            && placed[k] == ConfigPlacement(params, c).value
            && placed[k].name == "placeSteelSupport_" + c.name && placed[k].volume == c.volume
  {
    var f := ConfigStep(params, cfgs);
    forall n | 0 <= n < |cfgs|
      ensures f(n).Ok?
    {
      assert cfgs[n] in cfgs;
    }
    CollectOk(f, |cfgs|);
    CollectAt(f, |cfgs|, k);
    assert cfgs[k] in cfgs;
  }

  /** The first entry with an offset whose parameter is missing ends
      place_in_volume with KeyError, after the entries before it have
      been placed. */
  lemma MissingParameter(params: map<string, real>, cfgs: seq<Config>, k: nat)
    requires k < |cfgs| && cfgs[k].posParam !in params
    requires cfgs[k].xOffset.Some? || cfgs[k].yOffset.Some? || cfgs[k].zOffset.Some?
    requires forall n :: 0 <= n < k ==> cfgs[n].posParam in params
    ensures var (r, placed) := PlaceOutcome(Some(params), cfgs);
            r == Err(KeyError(cfgs[k].posParam)) && |placed| == k
  {
    var f := ConfigStep(params, cfgs);
    forall n | 0 <= n < k
      ensures f(n).Ok?
    {
    }
    CollectOk(f, k);
    assert Collect(f, k + 1).0 == Err(KeyError(cfgs[k].posParam));
    CollectStayFailed(f, k + 1, |cfgs|);
  }

  /** The builder: configure keeps a copy of a non-empty parameter
      dictionary; place_in_volume reads it. */
  class SteelSupportBuilder {
    var params: Option<map<string, real>>

    constructor()
      ensures params.None?
    {
      params := None;
    }

    /** configure: an empty or absent dictionary leaves the builder as it is. */
    method Configure(steelParameters: Option<map<string, real>>)
      modifies this
      ensures params == if steelParameters.Some? && |steelParameters.value| > 0 then steelParameters else old(params)
    {
      if steelParameters.Some? && |steelParameters.value| > 0 {
        params := steelParameters;
      }
    }

    /** place_in_volume, returning what it appended to the mother volume. */
    method PlaceInVolume() returns (r: Result<()>, placed: seq<Placement>)
      ensures (r, placed) == PlaceOutcome(params, Configs)
    {
      if params.None? {
        return Err(AttributeError("params")), [];
      }
      r, placed := PlaceEntries(params.value, Configs);
    }
  }

  /** place_in_volume's loop over its configuration list. */
  method PlaceEntries(p: map<string, real>, cfgs: seq<Config>) returns (r: Result<()>, placed: seq<Placement>)
    ensures (r, placed) == Collect(ConfigStep(p, cfgs), |cfgs|)
  {
    placed := [];
    for k := 0 to |cfgs|
      invariant Collect(ConfigStep(p, cfgs), k) == (Ok(()), placed)
    {
      var place := PlaceConfig(p, cfgs[k]);
      assert ConfigStep(p, cfgs)(k) == place;
      if place.Err? {
        CollectStayFailed(ConfigStep(p, cfgs), k + 1, |cfgs|);
        return Err(place.failure), placed;
      }
      placed := placed + [place.value];
    }
    r := Ok(());
  }

  /** The body of place_in_volume's loop for one entry. */
  method PlaceConfig(p: map<string, real>, c: Config) returns (place: Result<Placement>)
    ensures place == ConfigPlacement(p, c)
  {
    var pos := Origin3;
    if c.yOffset.Some? {
      if c.posParam !in p {
        return Err(KeyError(c.posParam));
      }
      pos := pos.(y := p[c.posParam] + c.yOffset.value);
    } else if c.zOffset.Some? {
      if c.posParam !in p {
        return Err(KeyError(c.posParam));
      }
      pos := pos.(z := p[c.posParam] + c.zOffset.value);
    } else if c.xOffset.Some? {
      if c.posParam !in p {
        return Err(KeyError(c.posParam));
      }
      pos := pos.(x := p[c.posParam] + c.xOffset.value);
    }
    if c.ax != "0deg" || c.ay != "0deg" || c.az != "0deg" {
      place := Ok(Placement("placeSteelSupport_" + c.name, c.volume, pos, "rotSteelSupport_" + c.name));
    } else {
      place := Ok(Placement("placeSteelSupport_" + c.name, c.volume, pos, NoRot));
    }
  }
}
