/** The ProtoDUNE-VD cathode builder: the sixteen void positions of a
    cathode module computed at configure time, the keyword overrides, and the
    placement of the cathode modules, their X-ARAPUCA tiles and the meshes
    over the voids. The builder is the one named "cathode": it looks its
    volumes up as "cathode_volume_nonTCO" and "cathode_volume_TCO". */
module PdCathode {
  import opened Wrappers
  import opened Strings
  import opened Placements
  import opened Dicts
  import XArapuca
  import CathodeGrid

  // Keys of the cathode dictionary.
  const LengthVoid: string := "lengthCathodeVoid"
  const WidthVoid: string := "widthCathodeVoid"
  const Border: string := "CathodeBorder"
  const MeshLength: string := "mesh_length"
  const MeshWidth: string := "mesh_width"
  const WidthCathode: string := "widthCathode"
  const LengthCathode: string := "lengthCathode"
  const HeightCathode: string := "heightCathode"
  const InnerVertical: string := "CathodeMeshInnerStructureLength_vertical"
  const InnerHorizontal: string := "CathodeMeshInnerStructureLength_horizontal"
  const RodRadius: string := "CathodeArapucaMeshRodRadius"
  const MeshSeparation: string := "CathodeMeshInnerStructureSeparation"

  // Volumes the placements refer to.
  const NonTco: string := "cathode_volume_nonTCO"
  const Tco: string := "cathode_volume_TCO"
  const MeshVolume: string := "cathode_mesh_vol"
  const TileWall: string := "volXARAPUCADoubleWall"
  const TileWindow: string := "volXARAPUCADoubleWindow"
  const TileMesh: string := "volCathodeArapucaMesh"
  const TileRot: string := "rPlus90AboutXPlus90AboutZ"

  // ---------------------------------------------------------------------
  // Void positions

  /** Offset of void row or column n (0 .. 3) from the module centre: the
      void sizes and the borders between them, the middle border counted
      on both sides. */
  function VoidCoord(n: int, size: real, border: real): real
  {
    if n < 2 then (n as real - 1.5) * size + (n as real - 2.0) * border
    else (n as real - 1.5) * size + (n as real - 1.0) * border
  }

  /** Void (i, j) as the pair (across, along) the module. */
  function VoidAt(wv: real, lv: real, b: real, i: nat, j: nat): (real, real)
  {
    (VoidCoord(i, wv, b), VoidCoord(j, lv, b))
  }

  function VoidCell(wv: real, lv: real, b: real): (nat, nat) -> (real, real)
  {
    (i: nat, j: nat) => VoidAt(wv, lv, b, i, j)
  }

  /** The sixteen voids in row-major order. */
  function VoidGrid(wv: real, lv: real, b: real): seq<(real, real)>
  {
    Flatten(SingleRows(VoidCell(wv, lv, b), 4), 4)
  }

  /** Void (i, j) is entry 4 i + j: sixteen entries in row-major order. */
  lemma VoidGridAt(wv: real, lv: real, b: real, i: nat, j: nat)
    requires i < 4 && j < 4
    ensures |VoidGrid(wv, lv, b)| == 16
    ensures VoidGrid(wv, lv, b)[4 * i + j] == VoidAt(wv, lv, b, i, j)
  {
    SingleGridAt(VoidCell(wv, lv, b), 4, 4, i, j);
    assert i * 4 + j == 4 * i + j;
  }

  /** The voids sit where the far-detector cathode grid cuts its voids: row
      i and column j of a module here are row 4 - i and column 4 - j there. */
  lemma VoidsMatchCathodeGrid(d: CathodeGrid.GridDims, i: nat, j: nat)
    requires i < 4 && j < 4
    ensures VoidAt(d.widthVoid, d.lengthVoid, d.border, i, j)
            == (CathodeGrid.VoidY(d, 4 - i), CathodeGrid.VoidZ(d, 4 - j))
  {
    RowMatchesGrid(d, i);
    ColumnMatchesGrid(d, j);
  }

  lemma RowMatchesGrid(d: CathodeGrid.GridDims, n: nat)
    requires n < 4
    ensures VoidCoord(n, d.widthVoid, d.border) == CathodeGrid.VoidY(d, 4 - n)
  {
    if n == 0 {
      assert CathodeGrid.VoidY(d, 4) == -1.5 * d.widthVoid - 2.0 * d.border;
    } else if n == 1 {
      assert CathodeGrid.VoidY(d, 3) == -0.5 * d.widthVoid - 1.0 * d.border;
    } else if n == 2 {
      assert CathodeGrid.VoidY(d, 2) == 0.5 * d.widthVoid + 1.0 * d.border;
    } else {
      assert CathodeGrid.VoidY(d, 1) == 1.5 * d.widthVoid + 2.0 * d.border;
    }
  }

  lemma ColumnMatchesGrid(d: CathodeGrid.GridDims, n: nat)
    requires n < 4
    ensures VoidCoord(n, d.lengthVoid, d.border) == CathodeGrid.VoidZ(d, 4 - n)
  {
    if n == 0 {
      assert CathodeGrid.VoidZ(d, 4) == -1.5 * d.lengthVoid - 2.0 * d.border;
    } else if n == 1 {
      assert CathodeGrid.VoidZ(d, 3) == -0.5 * d.lengthVoid - 1.0 * d.border;
    } else if n == 2 {
      assert CathodeGrid.VoidZ(d, 2) == 0.5 * d.lengthVoid + 1.0 * d.border;
    } else {
      assert CathodeGrid.VoidZ(d, 1) == 1.5 * d.lengthVoid + 2.0 * d.border;
    }
  }

  /** configure's nested loops: rows i, then columns j, appending [x, z]. */
  method VoidPositions(wv: real, lv: real, b: real) returns (vp: seq<(real, real)>)
    ensures vp == VoidGrid(wv, lv, b)
  {
    vp := [];
    for i := 0 to 4
      invariant vp == Flatten(SingleRows(VoidCell(wv, lv, b), 4), i)
    {
      var row := VoidRowAt(wv, lv, b, i);
      SingleStep(VoidCell(wv, lv, b), 4, i, 0);
      vp := vp + row;
    }
  }

  /** The inner loop: the voids of row i, column by column. */
  method VoidRowAt(wv: real, lv: real, b: real, i: nat) returns (row: seq<(real, real)>)
    ensures row == Flatten(Singles(VoidCell(wv, lv, b), i), 4)
  {
    ghost var g := VoidCell(wv, lv, b);
    row := [];
    for j := 0 to 4
      invariant row == Flatten(Singles(g, i), j)
    {
      var x := VoidOffset(i, wv, b);
      var z := VoidOffset(j, lv, b);
      assert g(i, j) == VoidAt(wv, lv, b, i, j);
      FlattenSnoc([], Singles(g, i), j, [(x, z)]);
      row := row + [(x, z)];
    }
  }

  /** One coordinate of a void: the border is counted once fewer on the
      near side of the module's centre. */
  method VoidOffset(n: nat, size: real, border: real) returns (c: real)
    ensures c == VoidCoord(n, size, border)
  {
    if n < 2 {
      c := (n as real - 1.5) * size + (n as real - 2.0) * border;
    } else {
      c := (n as real - 1.5) * size + (n as real - 1.0) * border;
    }
  }

  // ---------------------------------------------------------------------
  // configure

  /** The builder's state: the cathode dictionary (None until one is given),
      the void positions it holds under "void_positions", and the switch for
      the meshes over X-ARAPUCA tiles. */
  datatype CathodeState = CathodeState(params: Option<map<string, real>>, voids: Option<seq<(real, real)>>, meshSwitch: bool)

  /** A non-empty cathode dictionary becomes the builder's, with the mesh
      sizes and the void positions derived from it. */
  function WithCathode(s: CathodeState, cp: map<string, real>): (r: Result<CathodeState>)
    ensures |cp| == 0 ==> r == Ok(s)
    ensures |cp| > 0 && r.Ok? ==> LengthVoid in cp && WidthVoid in cp && Border in cp
    ensures |cp| > 0 && r.Ok? ==> r.value.voids == Some(VoidGrid(cp[WidthVoid], cp[LengthVoid], cp[Border]))
    ensures |cp| > 0 && r.Ok? ==> r.value.params == Some(cp[MeshLength := cp[LengthVoid]][MeshWidth := cp[WidthVoid]])
  {
    if |cp| == 0 then Ok(s)
    else
      var lv :- Get(Some(cp), LengthVoid);
      var wv :- Get(Some(cp), WidthVoid);
      var b :- Get(Some(cp), Border);
      Ok(CathodeState(Some(cp[MeshLength := lv][MeshWidth := wv]), Some(VoidGrid(wv, lv, b)), s.meshSwitch))
  }

  /** TPC dimensions give the module's width and length and the mesh inner
      structure lengths. */
  function WithTpc(s: CathodeState, tpc: map<string, real>): (r: Result<CathodeState>)
    ensures |tpc| == 0 ==> r == Ok(s)
    ensures |tpc| > 0 && r.Ok? ==> s.params.Some? && "widthCRP" in tpc && "lengthCRP" in tpc
    ensures |tpc| > 0 && r.Ok? ==> r.value.voids == s.voids
    ensures |tpc| > 0 && r.Ok? ==>
              (r.value.params.Some? && WidthCathode in r.value.params.value
               && r.value.params.value[WidthCathode] == tpc["widthCRP"])
  {
    if |tpc| == 0 then Ok(s)
    else
      var w :- Get(Some(tpc), "widthCRP");
      var p :- if s.params.None? then Err(TypeError("'NoneType' object does not support item assignment"))
               else Ok(s.params.value);
      var l :- Get(Some(tpc), "lengthCRP");
      var lv :- Get(Some(p), LengthVoid);
      var wv :- Get(Some(p), WidthVoid);
      Ok(s.(params := Some(p[WidthCathode := w][LengthCathode := l][InnerVertical := lv][InnerHorizontal := wv])))
  }

  /** The X-ARAPUCA dictionary gives the mesh rod radius. */
  function WithArapuca(s: CathodeState, xp: map<string, real>): (r: Result<CathodeState>)
    ensures |xp| == 0 ==> r == Ok(s)
    ensures |xp| > 0 && r.Ok? ==>
              (s.params.Some? && RodRadius in xp
               && r.value == s.(params := Some(s.params.value[RodRadius := xp[RodRadius]])))
  {
    if |xp| == 0 then Ok(s)
    else
      var rr :- Get(Some(xp), RodRadius);
      if s.params.None? then Err(TypeError("'NoneType' object does not support item assignment"))
      else Ok(s.(params := Some(s.params.value[RodRadius := rr])))
  }

  /** Keyword arguments override entries of the cathode dictionary. */
  function WithOverrides(s: CathodeState, kwargs: map<string, real>): (r: Result<CathodeState>)
    ensures |kwargs| == 0 ==> r == Ok(s)
    ensures |kwargs| > 0 ==> (r.Ok? <==> s.params.Some?)
    ensures r.Ok? ==> r.value.voids == s.voids && r.value.meshSwitch == s.meshSwitch
    ensures r.Ok? && |kwargs| > 0 ==>
              (r.value.params.Some?
               && r.value.params.value.Keys == s.params.value.Keys + kwargs.Keys
               && (forall k :: k in kwargs ==> r.value.params.value[k] == kwargs[k])
               && (forall k :: k in s.params.value && k !in kwargs ==> r.value.params.value[k] == s.params.value[k]))
  {
    if |kwargs| == 0 then Ok(s)
    else if s.params.None? then Err(AttributeError("update"))
    else Ok(s.(params := Some(s.params.value + kwargs)))
  }

  /** configure, which has no guard against a second call: the four stages in
      order, then the mesh switch. */
  function ConfigureState(s: CathodeState, cp: map<string, real>, tpc: map<string, real>, xp: map<string, real>,
                          meshSwitch: bool, kwargs: map<string, real>): (r: Result<CathodeState>)
  {
    var s1 :- WithCathode(s, cp);
    var s2 :- WithTpc(s1, tpc);
    var s3 :- WithArapuca(s2, xp);
    var s4 :- WithOverrides(s3, kwargs);
    Ok(s4.(meshSwitch := meshSwitch))
  }

  /** Keyword arguments win over every other source of an entry. */
  lemma KeywordsOverride(s: CathodeState, cp: map<string, real>, tpc: map<string, real>, xp: map<string, real>,
                         meshSwitch: bool, kwargs: map<string, real>, k: string)
    requires ConfigureState(s, cp, tpc, xp, meshSwitch, kwargs).Ok?
    requires k in kwargs
    ensures var t := ConfigureState(s, cp, tpc, xp, meshSwitch, kwargs).value;
            t.params.Some? && k in t.params.value && t.params.value[k] == kwargs[k]
  {
    var s1 := WithCathode(s, cp).value;
    var s2 := WithTpc(s1, tpc).value;
    var s3 := WithArapuca(s2, xp).value;
    assert WithOverrides(s3, kwargs).Ok?;
  }

  /** The voids are computed from the cathode dictionary alone, before any
      override: a keyword that changes a void size does not move them. */
  lemma VoidsFromCathodeDictionary(s: CathodeState, cp: map<string, real>, tpc: map<string, real>, xp: map<string, real>,
                                   meshSwitch: bool, kwargs: map<string, real>)
    requires ConfigureState(s, cp, tpc, xp, meshSwitch, kwargs).Ok?
    requires |cp| > 0
    ensures LengthVoid in cp && WidthVoid in cp && Border in cp
    ensures ConfigureState(s, cp, tpc, xp, meshSwitch, kwargs).value.voids
            == Some(VoidGrid(cp[WidthVoid], cp[LengthVoid], cp[Border]))
  {
    var s1 := WithCathode(s, cp).value;
    var s2 := WithTpc(s1, tpc).value;
    var s3 := WithArapuca(s2, xp).value;
    assert s2.voids == s1.voids && s3.voids == s2.voids;
  }

  /** Without keyword overrides, a TPC dictionary sets the module width. */
  lemma TpcSetsWidth(s: CathodeState, cp: map<string, real>, tpc: map<string, real>, xp: map<string, real>, meshSwitch: bool)
    requires ConfigureState(s, cp, tpc, xp, meshSwitch, map[]).Ok?
    requires |tpc| > 0 && RodRadius != WidthCathode
    ensures "widthCRP" in tpc
    ensures var t := ConfigureState(s, cp, tpc, xp, meshSwitch, map[]).value;
            t.params.Some? && WidthCathode in t.params.value && t.params.value[WidthCathode] == tpc["widthCRP"]
  {
    var s1 := WithCathode(s, cp).value;
    var s2 := WithTpc(s1, tpc).value;
    var s3 := WithArapuca(s2, xp).value;
    assert s3.params.value[WidthCathode] == s2.params.value[WidthCathode];
  }

  // ---------------------------------------------------------------------
  // place_in_volume

  /** The module grid's origin and pitch. */
  datatype Base = Base(x: real, baseY: real, baseZ: real, height: real, width: real, length: real)

  /** The reads at the top of place_in_volume, in source order: the centre x
      of the cathodes below the drift volume, and the first module's y and z. */
  function ReadBase(argon: Vec3, site: map<string, real>, own: Option<map<string, real>>): (r: Result<Base>)
    ensures r.Ok? ==> own.Some? && HeightCathode in own.value && WidthCathode in own.value && LengthCathode in own.value
    ensures r.Ok? ==> r.value.width == own.value[WidthCathode] && r.value.length == own.value[LengthCathode]
                      && r.value.height == own.value[HeightCathode]
  {
    var gas :- Get(Some(site), "HeightGaseousAr");
    var upper :- Get(Some(site), "Upper_xLArBuffer");
    var drift :- Get(Some(site), "driftTPCActive");
    var readout :- Get(Some(site), "ReadoutPlane");
    var h :- Get(own, HeightCathode);
    var yBuf :- Get(Some(site), "yLArBuffer");
    var w :- Get(own, WidthCathode);
    var zBuf :- Get(Some(site), "zLArBuffer");
    var l :- Get(own, LengthCathode);
    Ok(Base(argon.x / 2.0 - gas - upper - (drift + readout) - h / 2.0,
            -argon.y / 2.0 + yBuf + w / 2.0,
            -argon.z / 2.0 + zBuf + l / 2.0, h, w, l))
  }

  /** `params.get(key, 4)` for the CRM counts. */
  function CrmCount(counts: map<string, int>, key: string): (n: int)
    ensures key !in counts ==> n == 4
    ensures key in counts ==> n == counts[key]
  {
    if key in counts then counts[key] else 4
  }

  /** What the mesh placements read from the cathode dictionary: the voids,
      the separation the first void reads, and the mesh width and rod radius,
      absent when the dictionary lacks them; those two are read only by a
      void whose mesh needs them. */
  datatype Mesh = Mesh(voids: seq<(real, real)>, separation: real, width: Option<real>, rodRadius: Option<real>)

  /** Everything a module's placements depend on. */
  datatype Layout = Layout(b: Base, m: Mesh, meshSwitch: bool)

  function Abs(x: real): real { if x < 0.0 then -x else x }

  /** The centre of module (i, j). */
  function Centre(l: Layout, i: nat, j: nat): Vec3
  {
    Vec3(l.b.x, l.b.baseY + (i as real) * l.b.width, l.b.baseZ + (j as real) * l.b.length)
  }

  function Tag(i: nat, j: nat): string
  {
    NatToString(i) + "_" + NatToString(j)
  }

  /** Row 0 holds the modules without the transparent conductive coating. */
  function ModuleVolume(i: nat): string
  {
    if i == 0 then NonTco else Tco
  }

  function ModulePlacement(l: Layout, i: nat, j: nat): Placement
  {
    Placement("cathode_place_" + Tag(i, j), ModuleVolume(i), Centre(l, i, j), NoRot)
  }

  /** The tiles over module (i, j): none without an X-ARAPUCA builder. */
  function Tiles(frame: Option<XArapuca.Frame>, l: Layout, i: nat, j: nat): (ps: seq<Vec3>)
    ensures |ps| == if frame.None? then 0 else 4
  {
    if frame.None? then []
    else
      var c := Centre(l, i, j);
      [XArapuca.CathodeTile(frame.value, i, 0, c.x, c.y, c.z), XArapuca.CathodeTile(frame.value, i, 1, c.x, c.y, c.z),
       XArapuca.CathodeTile(frame.value, i, 2, c.x, c.y, c.z), XArapuca.CathodeTile(frame.value, i, 3, c.x, c.y, c.z)]
  }

  /** Each tile is placed twice: its wall and its window. */
  function TileSteps(i: nat, j: nat, ps: seq<Vec3>): nat -> seq<Placement>
  {
    (k: nat) =>
      if k < |ps| then
        [Placement("place_cathode_" + Tag(i, j) + "_xarapuca_" + NatToString(k), TileWall, ps[k], TileRot),
         Placement("place_cathode_" + Tag(i, j) + "_xwindow_" + NatToString(k), TileWindow, ps[k], TileRot)]
      else []
  }

  /** Whether tile p lies over void v of module (i, j): within 10 cm across
      and 1 cm along the module. */
  predicate Near(l: Layout, i: nat, j: nat, v: (real, real), p: Vec3)
  {
    Abs(VoidCentre(l, i, j, v).0 + l.m.separation - p.y) < 10.0 && Abs(VoidCentre(l, i, j, v).1 - p.z) < 1.0
  }

  /** The first tile from index k on that lies over void v. */
  function FirstNear(l: Layout, i: nat, j: nat, v: (real, real), ps: seq<Vec3>, k: nat): (r: Option<nat>)
    ensures r.Some? ==> k <= r.value < |ps| && Near(l, i, j, v, ps[r.value])
                        && forall q :: k <= q < r.value ==> !Near(l, i, j, v, ps[q])
    ensures r.None? ==> forall q :: k <= q < |ps| ==> !Near(l, i, j, v, ps[q])
    decreases |ps| - k
  {
    if k >= |ps| then None
    else if Near(l, i, j, v, ps[k]) then Some(k)
    else FirstNear(l, i, j, v, ps, k + 1)
  }

  /** The placements for void n of module (i, j): its mesh when no tile lies
      over it; otherwise, with the switch on, the tile's mesh above and below
      the cathode, named after that tile. Each reads its size from the
      dictionary there, failing when it is missing. */
  function MeshFor(l: Layout, i: nat, j: nat, n: nat, v: (real, real), ps: seq<Vec3>): Result<seq<Placement>>
  {
    var found := FirstNear(l, i, j, v, ps, 0);
    var c := VoidCentre(l, i, j, v);
    if found.None? then
      if l.m.width.None? then Err(KeyError(MeshWidth)) else Ok([VoidMesh(l, i, j, n, c, l.m.width.value)])
    else if !l.meshSwitch then Ok([])
    else if l.m.rodRadius.None? then Err(KeyError(RodRadius))
    else Ok(TileMeshes(l, i, j, found.value, c, l.m.rodRadius.value))
  }

  /** The centre (y, z) of void v of module (i, j). */
  function VoidCentre(l: Layout, i: nat, j: nat, v: (real, real)): (real, real)
  {
    (l.b.baseY + (i as real) * l.b.width + v.0, l.b.baseZ + (j as real) * l.b.length + v.1)
  }

  /** The mesh over void n of module (i, j), centred at c. */
  function VoidMesh(l: Layout, i: nat, j: nat, n: nat, c: (real, real), width: real): Placement
  {
    var (y, z) := c;
    Placement("cathode_mesh_place_" + Tag(i, j) + "_" + NatToString(n), MeshVolume,
              Vec3(l.b.x, y - width / 2.0 + l.m.separation, z), NoRot)
  }

  /** The meshes of tile k, above and below the cathode at c. */
  function TileMeshes(l: Layout, i: nat, j: nat, k: nat, c: (real, real), rodRadius: real): seq<Placement>
  {
    var (y, z) := c;
    [Placement("place_cathode_" + Tag(i, j) + "_top_xmesh_" + NatToString(k), TileMesh,
               Vec3(l.b.x + l.b.height / 2.0 - 2.0 * rodRadius, y, z), NoRot),
     Placement("place_cathode_" + Tag(i, j) + "_bottom_xmesh_" + NatToString(k), TileMesh,
               Vec3(l.b.x - l.b.height / 2.0 + 2.0 * rodRadius, y, z), NoRot)]
  }

  function MeshSteps(l: Layout, i: nat, j: nat, ps: seq<Vec3>): nat -> seq<Placement>
  {
    (n: nat) => if n < |l.m.voids| then Placed(MeshFor(l, i, j, n, l.m.voids[n], ps)) else []
  }

  function MeshFailures(l: Layout, i: nat, j: nat, ps: seq<Vec3>): nat -> seq<Failure>
  {
    (n: nat) => if n < |l.m.voids| then Failed(MeshFor(l, i, j, n, l.m.voids[n], ps)) else []
  }

  /** Module (i, j) with tiles ps: the module, its tiles, its meshes. */
  function Cell(l: Layout, i: nat, j: nat, ps: seq<Vec3>): seq<Placement>
  {
    [ModulePlacement(l, i, j)] + Flatten(TileSteps(i, j, ps), |ps|) + Flatten(MeshSteps(l, i, j, ps), |l.m.voids|)
  }

  function Cells(l: Layout, frame: Option<XArapuca.Frame>, i: nat): nat -> seq<Placement>
  {
    (j: nat) => Cell(l, i, j, Tiles(frame, l, i, j))
  }

  function Rows(l: Layout, frame: Option<XArapuca.Frame>, n: nat): nat -> seq<Placement>
  {
    (i: nat) => Flatten(Cells(l, frame, i), n)
  }

  /** The placements of an m-by-n module grid, row by row. */
  function Grid(l: Layout, frame: Option<XArapuca.Frame>, m: nat, n: nat): seq<Placement>
  {
    Flatten(Rows(l, frame, n), m)
  }

  /** The failed mesh reads of module (i, j), void by void. */
  function CellFailures(l: Layout, i: nat, j: nat, ps: seq<Vec3>): seq<Failure>
  {
    Flatten(MeshFailures(l, i, j, ps), |l.m.voids|)
  }

  function FailureCells(l: Layout, frame: Option<XArapuca.Frame>, i: nat): nat -> seq<Failure>
  {
    (j: nat) => CellFailures(l, i, j, Tiles(frame, l, i, j))
  }

  function FailureRows(l: Layout, frame: Option<XArapuca.Frame>, n: nat): nat -> seq<Failure>
  {
    (i: nat) => Flatten(FailureCells(l, frame, i), n)
  }

  /** The failed mesh reads of an m-by-n grid in placement order; the first
      of them ends the placement. */
  function GridFailures(l: Layout, frame: Option<XArapuca.Frame>, m: nat, n: nat): seq<Failure>
  {
    Flatten(FailureRows(l, frame, n), m)
  }

  /** An entry of the cathode dictionary, if it is there. */
  function Entry(own: Option<map<string, real>>, key: string): (r: Option<real>)
    ensures r.Some? <==> own.Some? && key in own.value
    ensures r.Some? ==> r.value == own.value[key]
  {
    if own.Some? && key in own.value then Some(own.value[key]) else None
  }

  /** The separation is read by the tile search of the first void, so only
      when there is a void; the mesh width and rod radius are kept for the
      voids that read them. */
  function ReadMesh(own: Option<map<string, real>>, vs: seq<(real, real)>): (r: Result<Mesh>)
    ensures r.Err? <==> |vs| > 0 && Get(own, MeshSeparation).Err?
    ensures r.Err? ==> r.failure == Get(own, MeshSeparation).failure
    ensures r.Ok? ==> r.value.voids == vs && r.value.width == Entry(own, MeshWidth) && r.value.rodRadius == Entry(own, RodRadius)
    ensures r.Ok? && |vs| > 0 ==> r.value.separation == own.value[MeshSeparation]
  {
    // Without a void nothing reads the separation; 0.0 stands in for it.
    var sep :- if |vs| == 0 then Ok(0.0) else Get(own, MeshSeparation);
    Ok(Mesh(vs, sep, Entry(own, MeshWidth), Entry(own, RodRadius)))
  }

  /** The X-ARAPUCA frame when a builder is given and its dictionaries hold
      the frame entries. */
  function FrameOf(xa: Option<Result<XArapuca.Frame>>): Option<XArapuca.Frame>
  {
    if xa.Some? && xa.value.Ok? then Some(xa.value.value) else None
  }

  /** place_in_volume: `xa` is None without an X-ARAPUCA builder, otherwise
      what reading its frame gives. A grid with a side of zero places
      nothing. Module (0, 0) asks for its tiles, then reads the voids;
      without a builder the tile list is never bound, which fails at the
      first void; then the voids read the dictionary as they go. */
  function PlaceSpec(argon: Vec3, site: map<string, real>, counts: map<string, int>, s: CathodeState,
                     xa: Option<Result<XArapuca.Frame>>): (r: Result<seq<Placement>>)
  {
    var b :- ReadBase(argon, site, s.params);
    var m := CrmCount(counts, "nCRM_x") / 2;
    var n := CrmCount(counts, "nCRM_z") / 2;
    if m <= 0 || n <= 0 then Ok([])
    else
      var _ :- if xa.Some? && xa.value.Err? then Err(xa.value.failure) else Ok(());
      var vs :- if s.voids.None? then Err(KeyError("void_positions")) else Ok(s.voids.value);
      if xa.None? && |vs| > 0 then Err(UnboundLocalError("arapuca_positions"))
      else
        var mesh :- ReadMesh(s.params, vs);
        var l := Layout(b, mesh, s.meshSwitch);
        FirstFailure(GridFailures(l, FrameOf(xa), m, n), Grid(l, FrameOf(xa), m, n))
  }

  // ---------------------------------------------------------------------
  // Properties of the placements

  predicate IsModule(p: Placement)
  {
    p.volume == NonTco || p.volume == Tco
  }

  function ModuleAt(l: Layout): (nat, nat) -> Placement
  {
    (i: nat, j: nat) => ModulePlacement(l, i, j)
  }

  lemma VolumesDistinct()
    ensures !IsModule(Placement("", TileWall, Origin3, "")) && !IsModule(Placement("", TileWindow, Origin3, ""))
    ensures !IsModule(Placement("", MeshVolume, Origin3, "")) && !IsModule(Placement("", TileMesh, Origin3, ""))
  {
    assert TileWall[0] != NonTco[0] && TileWall[0] != Tco[0];
    assert TileWindow[0] != NonTco[0] && TileWindow[0] != Tco[0];
    assert TileMesh[0] != NonTco[0] && TileMesh[0] != Tco[0];
    assert |MeshVolume| != |NonTco| && |MeshVolume| != |Tco|;
  }

  /** Of a module's placements, only the first is a cathode module. */
  lemma CellModules(l: Layout, i: nat, j: nat, ps: seq<Vec3>)
    ensures Filter(IsModule, Cell(l, i, j, ps)) == [ModulePlacement(l, i, j)]
  {
    var tiles := Flatten(TileSteps(i, j, ps), |ps|);
    var meshes := Flatten(MeshSteps(l, i, j, ps), |l.m.voids|);
    forall k: nat, q | k < |ps| && q in TileSteps(i, j, ps)(k)
      ensures !IsModule(q)
    {
      TileVolumes(i, j, ps, k);
    }
    forall k: nat, q | k < |l.m.voids| && q in MeshSteps(l, i, j, ps)(k)
      ensures !IsModule(q)
    {
      MeshVolumes(l, i, j, k, l.m.voids[k], ps);
    }
    FilterNone(IsModule, TileSteps(i, j, ps), |ps|);
    FilterNone(IsModule, MeshSteps(l, i, j, ps), |l.m.voids|);
    FilterAppend(IsModule, [ModulePlacement(l, i, j)] + tiles, meshes);
    FilterAppend(IsModule, [ModulePlacement(l, i, j)], tiles);
  }

  lemma TileVolumes(i: nat, j: nat, ps: seq<Vec3>, k: nat)
    ensures forall q :: q in TileSteps(i, j, ps)(k) ==> q.volume in {TileWall, TileWindow}
    ensures forall q :: q in TileSteps(i, j, ps)(k) ==> !IsModule(q)
  {
    VolumesDistinct();
  }

  lemma MeshVolumes(l: Layout, i: nat, j: nat, n: nat, v: (real, real), ps: seq<Vec3>)
    ensures forall q :: q in Placed(MeshFor(l, i, j, n, v, ps)) ==> q.volume in {MeshVolume, TileMesh}
    ensures forall q :: q in Placed(MeshFor(l, i, j, n, v, ps)) ==> !IsModule(q)
  {
    VolumesDistinct();
  }

  /** The cathode modules of row r of a grid, in column order. */
  lemma RowModules(l: Layout, frame: Option<XArapuca.Frame>, n: nat, r: nat)
    ensures Filter(IsModule, Rows(l, frame, n)(r)) == SingleRows(ModuleAt(l), n)(r)
  {
    forall c: nat | c < n
      ensures Filter(IsModule, Cells(l, frame, r)(c)) == Singles(ModuleAt(l), r)(c)
    {
      CellModules(l, r, c, Tiles(frame, l, r, c));
    }
    FilterFlatten(IsModule, Cells(l, frame, r), Singles(ModuleAt(l), r), n);
  }

  /** The cathode modules of a grid, row by row. */
  lemma GridModuleList(l: Layout, frame: Option<XArapuca.Frame>, m: nat, n: nat)
    ensures Filter(IsModule, Grid(l, frame, m, n)) == Flatten(SingleRows(ModuleAt(l), n), m)
  {
    forall r: nat | r < m
      ensures Filter(IsModule, Rows(l, frame, n)(r)) == SingleRows(ModuleAt(l), n)(r)
    {
      RowModules(l, frame, n, r);
    }
    FilterFlatten(IsModule, Rows(l, frame, n), SingleRows(ModuleAt(l), n), m);
  }

  /** The cathode modules of an m-by-n grid are placed one per cell in
      row-major order; row 0 uses the non-TCO volume, the other rows the TCO
      one. */
  lemma GridModules(l: Layout, frame: Option<XArapuca.Frame>, m: nat, n: nat, i: nat, j: nat)
    requires i < m && j < n
    ensures |Filter(IsModule, Grid(l, frame, m, n))| == m * n
    ensures CellIndex(i, n, j) < m * n && Filter(IsModule, Grid(l, frame, m, n))[CellIndex(i, n, j)] == ModulePlacement(l, i, j)
  {
    forall r: nat | r < m
      ensures Filter(IsModule, Rows(l, frame, n)(r)) == SingleRows(ModuleAt(l), n)(r)
    {
      RowModules(l, frame, n, r);
    }
    FilterGridAt(IsModule, Rows(l, frame, n), ModuleAt(l), m, n, i, j);
  }

  /** A void's mesh is placed exactly when no tile lies over it; otherwise,
      with the switch on, two tile meshes are placed, one on each face of the
      cathode, and with it off nothing is. The void's mesh reads the mesh
      width and the tile meshes the rod radius: the void fails exactly when
      the one it reads is missing, and reads nothing else. */
  lemma MeshSkipRule(l: Layout, i: nat, j: nat, n: nat, v: (real, real), ps: seq<Vec3>)
    ensures MeshFor(l, i, j, n, v, ps).Ok? ==>
              ((forall k :: 0 <= k < |ps| ==> !Near(l, i, j, v, ps[k]))
               <==> (|MeshFor(l, i, j, n, v, ps).value| == 1 && MeshFor(l, i, j, n, v, ps).value[0].volume == MeshVolume))
    ensures MeshFor(l, i, j, n, v, ps).Ok? && (exists k :: 0 <= k < |ps| && Near(l, i, j, v, ps[k])) ==>
              |MeshFor(l, i, j, n, v, ps).value| == (if l.meshSwitch then 2 else 0)
    ensures (forall k :: 0 <= k < |ps| ==> !Near(l, i, j, v, ps[k])) ==>
              (MeshFor(l, i, j, n, v, ps).Err? <==> l.m.width.None?)
    ensures (exists k :: 0 <= k < |ps| && Near(l, i, j, v, ps[k])) ==>
              (MeshFor(l, i, j, n, v, ps).Err? <==> l.meshSwitch && l.m.rodRadius.None?)
    ensures MeshFor(l, i, j, n, v, ps).Err? ==> AllowedFailure(l, MeshFor(l, i, j, n, v, ps).failure)
  {
    VolumesDistinct();
    var f := FirstNear(l, i, j, v, ps, 0);
    if f.Some? {
      var t := MeshFor(l, i, j, n, v, ps);
      if t.Ok? && l.meshSwitch {
        assert t.value[0].volume == TileMesh;
      }
    }
  }

  /** The reads a void may fail on: the mesh width when it is missing, and
      the rod radius when it is missing and the switch is on. */
  predicate AllowedFailure(l: Layout, e: Failure)
  {
    (e == KeyError(MeshWidth) && l.m.width.None?) || (e == KeyError(RodRadius) && l.meshSwitch && l.m.rodRadius.None?)
  }

  /** Every failed read of a grid's voids is one a void may fail on. */
  lemma GridFailuresAllowed(l: Layout, frame: Option<XArapuca.Frame>, m: nat, n: nat)
    ensures forall e :: e in GridFailures(l, frame, m, n) ==> AllowedFailure(l, e)
  {
    var ok := (e: Failure) => AllowedFailure(l, e);
    forall r: nat, c: nat | r < m && c < n
      ensures forall e :: e in FailureCells(l, frame, r)(c) ==> ok(e)
    {
      var ps := Tiles(frame, l, r, c);
      forall k: nat | k < |l.m.voids|
        ensures forall e :: e in MeshFailures(l, r, c, ps)(k) ==> ok(e)
      {
        MeshSkipRule(l, r, c, k, l.m.voids[k], ps);
      }
      FlattenAll(MeshFailures(l, r, c, ps), |l.m.voids|, ok);
    }
    forall r: nat | r < m
      ensures forall e :: e in FailureRows(l, frame, n)(r) ==> ok(e)
    {
      FlattenAll(FailureCells(l, frame, r), n, ok);
    }
    FlattenAll(FailureRows(l, frame, n), m, ok);
  }

  /** With the switch off, a dictionary that holds the mesh width places the
      whole grid, whether or not it holds the rod radius. */
  lemma SwitchOffNeedsNoRodRadius(l: Layout, frame: Option<XArapuca.Frame>, m: nat, n: nat)
    requires !l.meshSwitch && l.m.width.Some?
    ensures FirstFailure(GridFailures(l, frame, m, n), Grid(l, frame, m, n)) == Ok(Grid(l, frame, m, n))
  {
    GridFailuresAllowed(l, frame, m, n);
    var fs := GridFailures(l, frame, m, n);
    if |fs| > 0 {
      assert fs[0] in fs;
    }
  }

  /** The grid is nCRM_x // 2 rows by nCRM_z // 2 columns, each count
      defaulting to 4: 2 by 2 modules when neither is given. */
  lemma DefaultGrid(argon: Vec3, site: map<string, real>, s: CathodeState, xa: Option<Result<XArapuca.Frame>>)
    requires PlaceSpec(argon, site, map[], s, xa).Ok?
    ensures ReadBase(argon, site, s.params).Ok? && s.voids.Some? && ReadMesh(s.params, s.voids.value).Ok?
    ensures PlaceSpec(argon, site, map[], s, xa).value
            == Grid(Layout(ReadBase(argon, site, s.params).value, ReadMesh(s.params, s.voids.value).value, s.meshSwitch), FrameOf(xa), 2, 2)
  {
    assert CrmCount(map[], "nCRM_x") / 2 == 2 && CrmCount(map[], "nCRM_z") / 2 == 2;
  }

  // ---------------------------------------------------------------------
  // The builder

  class CathodeBuilder {
    var params: Option<map<string, real>>
    var voids: Option<seq<(real, real)>>
    var meshSwitch: bool

    function State(): CathodeState
      reads this
    {
      CathodeState(params, voids, meshSwitch)
    }

    constructor ()
      ensures State() == CathodeState(None, None, true)
    {
      params, voids, meshSwitch := None, None, true;
    }

    /** configure; on a failure the builder is left as it was. */
    method Configure(cp: map<string, real>, tpc: map<string, real>, xp: map<string, real>,
                     switch: bool, kwargs: map<string, real>) returns (r: Result<()>)
      modifies this
      ensures r.Ok? <==> ConfigureState(old(State()), cp, tpc, xp, switch, kwargs).Ok?
      ensures r.Ok? ==> State() == ConfigureState(old(State()), cp, tpc, xp, switch, kwargs).value
      ensures r.Err? ==> r.failure == ConfigureState(old(State()), cp, tpc, xp, switch, kwargs).failure
                         && State() == old(State())
    {
      var s1 := CathodeStage(State(), cp);
      if s1.Err? {
        return Err(s1.failure);
      }
      var s2 := WithTpc(s1.value, tpc);
      if s2.Err? {
        return Err(s2.failure);
      }
      var s3 := WithArapuca(s2.value, xp);
      if s3.Err? {
        return Err(s3.failure);
      }
      var s4 := WithOverrides(s3.value, kwargs);
      if s4.Err? {
        return Err(s4.failure);
      }
      params, voids, meshSwitch := s4.value.params, s4.value.voids, switch;
      return Ok(());
    }

    /** place_in_volume: the modules row by row, each followed by its
        X-ARAPUCA tiles and the meshes over its voids. */
    method PlaceInVolume(argon: Vec3, site: map<string, real>, counts: map<string, int>, xa: XArapuca.XArapucaBuilder?)
      returns (r: Result<seq<Placement>>)
      ensures r == PlaceSpec(argon, site, counts, State(), FrameRead(xa))
    {
      var b := ReadBase(argon, site, params);
      if b.Err? {
        return Err(b.failure);
      }
      var m := CrmCount(counts, "nCRM_x") / 2;
      var n := CrmCount(counts, "nCRM_z") / 2;
      if m <= 0 || n <= 0 {
        return Ok([]);
      }
      // Module (0, 0) asks for its tiles before anything else is read.
      if xa != null {
        var frame := XArapuca.ReadFrame(xa.params, xa.cathode);
        if frame.Err? {
          return Err(frame.failure);
        }
      }
      if voids.None? {
        return Err(KeyError("void_positions"));
      }
      if xa == null && |voids.value| > 0 {
        return Err(UnboundLocalError("arapuca_positions"));
      }
      var mesh := ReadMesh(params, voids.value);
      if mesh.Err? {
        return Err(mesh.failure);
      }
      var l := Layout(b.value, mesh.value, meshSwitch);
      r := PlaceGrid(l, xa, m, n);
    }
  }

  /** The frame the X-ARAPUCA builder's dictionaries give, if there is one. */
  function FrameRead(xa: XArapuca.XArapucaBuilder?): Option<Result<XArapuca.Frame>>
    reads xa
  {
    if xa == null then None else Some(XArapuca.ReadFrame(xa.params, xa.cathode))
  }

  /** The modules of an m-by-n grid row by row, each followed by its
      X-ARAPUCA tiles and the meshes over its voids; the first tile request
      fails when the X-ARAPUCA dictionaries lack a frame entry, and the
      first void whose mesh size is missing ends the placement. */
  method PlaceGrid(l: Layout, xa: XArapuca.XArapucaBuilder?, m: nat, n: nat) returns (r: Result<seq<Placement>>)
    ensures r == if m > 0 && n > 0 && FrameRead(xa).Some? && FrameRead(xa).value.Err? then Err(FrameRead(xa).value.failure)
                 else FirstFailure(GridFailures(l, FrameOf(FrameRead(xa)), m, n), Grid(l, FrameOf(FrameRead(xa)), m, n))
  {
    ghost var xr := FrameRead(xa);
    ghost var f := FrameOf(xr);
    var placed: seq<Placement> := [];
    for i := 0 to m
      invariant placed == Grid(l, f, i, n) && GridFailures(l, f, i, n) == []
      invariant i > 0 && n > 0 ==> xr.None? || xr.value.Ok?
    {
      ghost var before := placed;
      for j := 0 to n
        invariant placed == before + Flatten(Cells(l, f, i), j) && Flatten(FailureCells(l, f, i), j) == []
        invariant (i > 0 && n > 0) || j > 0 ==> xr.None? || xr.value.Ok?
      {
        var c := Centre(l, i, j);
        var ps: seq<Vec3> := [];
        if xa != null {
          var pr := xa.CathodePositions(i, c.x, c.y, c.z);
          if pr.Err? {
            return Err(pr.failure);
          }
          ps := pr.value;
        }
        TilesAre(l, xr, i, j, ps);
        var cell := PlaceCell(l, i, j, ps);
        if cell.Err? {
          CellFails(l, f, m, n, i, j);
          return Err(cell.failure);
        }
        CellDone(l, f, i, j, before, placed);
        placed := placed + cell.value;
      }
      RowDone(l, f, n, i, before);
    }
    return Ok(placed);
  }

  /** The first module that fails, after none did, ends the grid's loop. */
  lemma CellFails(l: Layout, f: Option<XArapuca.Frame>, m: nat, n: nat, i: nat, j: nat)
    requires i < m && j < n && GridFailures(l, f, i, n) == [] && Flatten(FailureCells(l, f, i), j) == []
    requires CellFailures(l, i, j, Tiles(f, l, i, j)) != []
    ensures GridFailures(l, f, m, n) != [] && GridFailures(l, f, m, n)[0] == CellFailures(l, i, j, Tiles(f, l, i, j))[0]
  {
    FlattenFirst(FailureCells(l, f, i), j, n);
    FlattenFirst(FailureRows(l, f, n), i, m);
  }

  /** A module that succeeds adds its placements and no failure. */
  lemma CellDone(l: Layout, f: Option<XArapuca.Frame>, i: nat, j: nat, before: seq<Placement>, placed: seq<Placement>)
    requires placed == before + Flatten(Cells(l, f, i), j) && Flatten(FailureCells(l, f, i), j) == []
    requires CellFailures(l, i, j, Tiles(f, l, i, j)) == []
    ensures placed + Cell(l, i, j, Tiles(f, l, i, j)) == before + Flatten(Cells(l, f, i), j + 1)
    ensures Flatten(FailureCells(l, f, i), j + 1) == []
  {
    FlattenSnoc(before, Cells(l, f, i), j, Cell(l, i, j, Tiles(f, l, i, j)));
  }

  /** A row whose modules all succeed extends the grid and adds no failure. */
  lemma RowDone(l: Layout, f: Option<XArapuca.Frame>, n: nat, i: nat, before: seq<Placement>)
    requires before == Grid(l, f, i, n) && GridFailures(l, f, i, n) == [] && Flatten(FailureCells(l, f, i), n) == []
    ensures Grid(l, f, i + 1, n) == before + Flatten(Cells(l, f, i), n) && GridFailures(l, f, i + 1, n) == []
  {
  }

  /** The first stage of configure, with the void loops. */
  method CathodeStage(s: CathodeState, cp: map<string, real>) returns (r: Result<CathodeState>)
    ensures r == WithCathode(s, cp)
  {
    if |cp| == 0 {
      return Ok(s);
    }
    var w := WithCathode(s, cp);
    if w.Err? {
      return Err(w.failure);
    }
    var vp := VoidPositions(cp[WidthVoid], cp[LengthVoid], cp[Border]);
    return Ok(CathodeState(Some(cp[MeshLength := cp[LengthVoid]][MeshWidth := cp[WidthVoid]]), Some(vp), s.meshSwitch));
  }

  /** The tiles the X-ARAPUCA builder returns are the ones the grid uses. */
  lemma TilesAre(l: Layout, xr: Option<Result<XArapuca.Frame>>, i: nat, j: nat, ps: seq<Vec3>)
    requires xr.None? ==> ps == []
    requires xr.Some? ==> xr.value.Ok? && |ps| == 4
    requires xr.Some? ==> forall k :: 0 <= k < 4 ==>
               ps[k] == XArapuca.CathodeTile(xr.value.value, i, k, Centre(l, i, j).x, Centre(l, i, j).y, Centre(l, i, j).z)
    ensures ps == Tiles(FrameOf(xr), l, i, j)
  {
  }

  /** The wall and window of each tile over module (i, j). */
  method PlaceTiles(i: nat, j: nat, ps: seq<Vec3>) returns (placed: seq<Placement>)
    ensures placed == Flatten(TileSteps(i, j, ps), |ps|)
  {
    placed := [];
    for k := 0 to |ps|
      invariant placed == Flatten(TileSteps(i, j, ps), k)
    {
      placed := placed + [Placement("place_cathode_" + Tag(i, j) + "_xarapuca_" + NatToString(k), TileWall, ps[k], TileRot),
                          Placement("place_cathode_" + Tag(i, j) + "_xwindow_" + NatToString(k), TileWindow, ps[k], TileRot)];
    }
  }

  /** The voids of module (i, j), each searched for a tile over it; the
      first void whose mesh size is missing ends the loop. */
  method PlaceMeshes(l: Layout, i: nat, j: nat, ps: seq<Vec3>) returns (r: Result<seq<Placement>>)
    ensures r == FirstFailure(CellFailures(l, i, j, ps), Flatten(MeshSteps(l, i, j, ps), |l.m.voids|))
  {
    var placed := [];
    for n := 0 to |l.m.voids|
      invariant placed == Flatten(MeshSteps(l, i, j, ps), n) && Flatten(MeshFailures(l, i, j, ps), n) == []
    {
      var step := PlaceMesh(l, i, j, n, l.m.voids[n], ps);
      if step.Err? {
        MeshStepFails(l, i, j, ps, n, Flatten(MeshSteps(l, i, j, ps), |l.m.voids|));
        return Err(step.failure);
      }
      MeshStep(l, i, j, ps, n);
      placed := placed + step.value;
    }
    return Ok(placed);
  }

  /** A void that reads what it needs adds its placements and no failure. */
  lemma MeshStep(l: Layout, i: nat, j: nat, ps: seq<Vec3>, n: nat)
    requires n < |l.m.voids| && MeshFor(l, i, j, n, l.m.voids[n], ps).Ok?
    ensures Flatten(MeshSteps(l, i, j, ps), n + 1) == Flatten(MeshSteps(l, i, j, ps), n) + MeshFor(l, i, j, n, l.m.voids[n], ps).value
    ensures Flatten(MeshFailures(l, i, j, ps), n + 1) == Flatten(MeshFailures(l, i, j, ps), n)
  {
  }

  /** The first void that fails, after none did, ends the module's loop. */
  lemma MeshStepFails(l: Layout, i: nat, j: nat, ps: seq<Vec3>, n: nat, placed: seq<Placement>)
    requires n < |l.m.voids| && Flatten(MeshFailures(l, i, j, ps), n) == [] && MeshFor(l, i, j, n, l.m.voids[n], ps).Err?
    ensures FirstFailure(CellFailures(l, i, j, ps), placed) == Err(MeshFor(l, i, j, n, l.m.voids[n], ps).failure)
  {
    assert MeshFailures(l, i, j, ps)(n) == [MeshFor(l, i, j, n, l.m.voids[n], ps).failure];
    FlattenFirst(MeshFailures(l, i, j, ps), n, |l.m.voids|);
  }

  /** One void: its mesh, or the tile meshes over and under it. */
  method PlaceMesh(l: Layout, i: nat, j: nat, n: nat, v: (real, real), ps: seq<Vec3>) returns (r: Result<seq<Placement>>)
    ensures r == MeshFor(l, i, j, n, v, ps)
  {
    var found := FindTile(l, i, j, v, ps);
    var c := VoidCentre(l, i, j, v);
    if found.None? {
      if l.m.width.None? {
        return Err(KeyError(MeshWidth));
      }
      r := Ok([VoidMesh(l, i, j, n, c, l.m.width.value)]);
    } else if !l.meshSwitch {
      r := Ok([]);
    } else if l.m.rodRadius.None? {
      r := Err(KeyError(RodRadius));
    } else {
      r := Ok(TileMeshes(l, i, j, found.value, c, l.m.rodRadius.value));
    }
  }

  /** Module (i, j): the module, then its tiles, then its meshes. */
  method PlaceCell(l: Layout, i: nat, j: nat, ps: seq<Vec3>) returns (r: Result<seq<Placement>>)
    ensures r == FirstFailure(CellFailures(l, i, j, ps), Cell(l, i, j, ps))
  {
    var tiles := PlaceTiles(i, j, ps);
    var meshes := PlaceMeshes(l, i, j, ps);
    if meshes.Err? {
      return Err(meshes.failure);
    }
    r := Ok([ModulePlacement(l, i, j)] + tiles + meshes.value);
  }

  /** The search with `break` over the tiles for one void. */
  method FindTile(l: Layout, i: nat, j: nat, v: (real, real), ps: seq<Vec3>) returns (found: Option<nat>)
    ensures found == FirstNear(l, i, j, v, ps, 0)
  {
    found := None;
    var k := 0;
    while k < |ps|
      invariant 0 <= k <= |ps|
      invariant FirstNear(l, i, j, v, ps, 0) == FirstNear(l, i, j, v, ps, k)
    {
      if Near(l, i, j, v, ps[k]) {
        found := Some(k);
        return;
      }
      k := k + 1;
    }
  }
}
