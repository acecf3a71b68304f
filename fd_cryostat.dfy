/** The FD-VD cryostat builder (dunefdvd/Cryostat.py): the volume helper,
    the keyword check of configure, and the placement helpers that fill the
    TPC enclosure and the cryostat: the CRM grid of TPCs, the photon
    detectors on the cathode frames, the field-shaper column, and the
    photon detectors on the membrane walls. */
module FdCryostat {
  import opened Wrappers
  import opened Strings
  import opened Placements
  import opened Shapes
  import opened ParamStore
  import Dicts

  /** The global parameters the placement helpers read (cm), each under
      the name of its key; the two offset lists of the cathode frames have
      the four entries the store derives. */
  datatype CryoParams = CryoParams(
    tpc: bool, fieldCageSwitch: bool, pdsconfig: int,
    nCrmX: int, nCrmY: int, nCrmZ: int,
    argonX: real, argonY: real, argonZ: real, heightGasAr: real, anodePlateWidth: real,
    encX: real, encY: real, encZ: real, tpcX: real,
    lengthCrm: real, widthCrm: real, borderCrp: real,
    heightCathode: real, widthCathode: real, lengthCathode: real,
    posYBot: (real, real, real, real), posZBot: (real, real, real, real),
    nFieldShapers: real, separation: real, shortTubeLength: real, torRad: real,
    drift: real, readoutPlane: real,
    padWidth: real, firstFrameVertDist: real, verticalPdDist: real, xLArBuffer: real,
    frameToArapucaSpaceLat: real, frameToArapucaSpace: real, arapucaOutX: real)


  /** A running coordinate: `start`, then `step` added k times. */
  function Stepped(start: real, step: real, k: nat): real
  {
    if k == 0 then start else Stepped(start, step, k - 1) + step
  }

  lemma {:induction false} SteppedClosed(start: real, step: real, k: nat)
    ensures Stepped(start, step, k) == start + (k as real) * step
  {
    if k > 0 {
      SteppedClosed(start, step, k - 1);
    }
  }

  /** The name a placement is built from: the volume's name with "vol" taken out. */
  function Stem(volume: string): string
  {
    RemoveAll(volume, "vol")
  }

  // ---------------------------------------------------------------------------
  // make_volume and configure

  const AuxParams: seq<(string, string)> :=
    [("SensDet", "SimEnergyDeposit"), ("StepLimit", "0.5208*cm"), ("Efield", "0*V/cm")]

  /** make_volume: an empty name stands for "vol" and the shape's name; a
      volume made with `aux` carries the sensitive-detector, step-limit and
      field parameters, in that order, and no others. */
  function MakeVolume(material: string, shape: Shape, name: string, aux: bool): (v: Volume)
    ensures v.material == material && v.shape == shape
    ensures name != "" ==> v.name == name
    ensures name == "" ==> v.name == "vol" + shape.name
    ensures |v.params| == (if aux then 3 else 0)
  {
    Volume(if name == "" then "vol" + shape.name else name, material, shape, if aux then AuxParams else [])
  }

  /** Two volumes made without names are named apart exactly when their shapes are. */
  lemma DefaultNamesDistinct(m1: string, s1: Shape, a1: bool, m2: string, s2: Shape, a2: bool)
    ensures MakeVolume(m1, s1, "", a1).name == MakeVolume(m2, s2, "", a2).name <==> s1.name == s2.name
  {
    if MakeVolume(m1, s1, "", a1).name == MakeVolume(m2, s2, "", a2).name {
      assert s1.name == ("vol" + s1.name)[3..];
    }
  }

  /** configure: only keywords of the Cryostat section, which they replace. */
  function Configure(st: Store, kwds: map<Key, Value>): (r: Result<Store>)
    ensures r.Err? <==> !(kwds.Keys <= st.sections.cryostat.Keys)
    ensures r.Err? ==> r.failure.ValueError?
    ensures r.Ok? ==> r.value.sections.cryostat.Keys == st.sections.cryostat.Keys &&
                      forall k :: k in kwds ==> r.value.sections.cryostat[k] == kwds[k]
  {
    var r := ConfigureState(st, Cryostat, kwds);
    if r.Ok? then ConfigureKeepsKeys(st, Cryostat, kwds); r else r
  }

  // ---------------------------------------------------------------------------
  // placeTPC

  /** The gap added before CRM row k: one border before the first row,
      two before every later even row, none before an odd row. */
  function Border(border: real, k: nat): real
  {
    if k % 2 == 0 then border * (1.0 + (if k > 0 then 1.0 else 0.0)) else 0.0
  }

  /** A running CRM coordinate at step k: from `start`, each step adds
      its border gap, and each completed step adds one CRM size. */
  function CrmCoord(start: real, size: real, border: real, k: nat): real
  {
    (if k == 0 then start else CrmCoord(start, size, border, k - 1) + size) + Border(border, k)
  }

  function TpcX(p: CryoParams): real
  {
    0.5 * p.encX - 0.5 * p.tpcX - p.anodePlateWidth
  }

  function TpcZ(p: CryoParams, ii: nat): real
  {
    CrmCoord(-0.5 * p.encZ + 0.5 * p.lengthCrm, p.lengthCrm, p.borderCrp, ii)
  }

  function TpcY(p: CryoParams, jj: nat): real
  {
    CrmCoord(-0.5 * p.encY + 0.5 * p.widthCrm, p.widthCrm, p.borderCrp, jj)
  }

  /** CRM (ii, jj): the top TPC, and the bottom one, mirrored in x, when
      there are two drift volumes; both numbered ii * nCRM_y + jj. */
  function TpcCell(p: CryoParams, tpcVol: string, ii: nat, jj: nat): seq<Placement>
  {
    var idx := NatToString(ii * RangeLen(p.nCrmY) + jj);
    var pos := Vec3(TpcX(p), TpcY(p, jj), TpcZ(p, ii));
    [Placement("placeTop" + Stem(tpcVol) + "-" + idx, tpcVol, pos, NoRot)]
    + (if p.nCrmX == 2 then [Placement("placeBot" + Stem(tpcVol) + "-" + idx, tpcVol, pos.(x := -TpcX(p)), NoRot)]
       else [])
  }

  function TpcCells(p: CryoParams, tpcVol: string): (nat, nat) -> seq<Placement>
  {
    (ii: nat, jj: nat) => TpcCell(p, tpcVol, ii, jj)
  }

  /** placeTPC: nothing without the TPC switch; otherwise the CRM grid,
      row by row in z. */
  function TpcPlacements(p: CryoParams, tpcVol: string): seq<Placement>
  {
    if p.tpc then Grid(TpcCells(p, tpcVol), RangeLen(p.nCrmZ), RangeLen(p.nCrmY)) else []
  }

  /** The CRMs come in pairs: after the first border, row k sits k CRM
      sizes on, plus two borders for each completed pair. */
  lemma {:induction false} CrmCoordClosed(start: real, size: real, border: real, k: nat)
    ensures CrmCoord(start, size, border, k) == start + (k as real) * size + border * (1.0 + 2.0 * ((k / 2) as real))
  {
    if k > 0 {
      CrmCoordClosed(start, size, border, k - 1);
      if k % 2 == 0 {
        assert k / 2 == (k - 1) / 2 + 1;
      } else {
        assert k / 2 == (k - 1) / 2;
      }
    }
  }

  /** The two CRMs of a pair touch; pairs are two borders apart. */
  lemma CrmGaps(start: real, size: real, border: real, k: nat)
    requires k > 0
    ensures CrmCoord(start, size, border, k) - CrmCoord(start, size, border, k - 1)
            == size + (if k % 2 == 0 then 2.0 * border else 0.0)
  {
  }

  /** Every CRM cell places one TPC, two with two drift volumes. */
  lemma TpcCellLength(p: CryoParams, tpcVol: string, ii: nat, jj: nat)
    ensures |TpcCell(p, tpcVol, ii, jj)| == (if p.nCrmX == 2 then 2 else 1)
  {
  }

  /** placeTPC places nCRM_z * nCRM_y cells; the top TPC of cell (ii, jj)
      is entry (ii nCRM_y + jj) m, with m TPCs per cell, numbered
      ii nCRM_y + jj, at that CRM's y and z; with two drift volumes the
      bottom TPC follows it, mirrored in x. */
  lemma TpcPlaced(p: CryoParams, tpcVol: string, ii: nat, jj: nat)
    requires p.tpc && ii < RangeLen(p.nCrmZ) && jj < RangeLen(p.nCrmY)
    ensures var all, m, ny := TpcPlacements(p, tpcVol), (if p.nCrmX == 2 then 2 else 1), RangeLen(p.nCrmY);
            var k := (ii * ny + jj) * m;
            |all| == RangeLen(p.nCrmZ) * ny * m && k + m - 1 < |all|
            && all[k].name == "placeTop" + Stem(tpcVol) + "-" + NatToString(ii * ny + jj)
            && all[k].pos == Vec3(TpcX(p), TpcY(p, jj), TpcZ(p, ii))
            && (m == 2 ==> all[k + 1].name == "placeBot" + Stem(tpcVol) + "-" + NatToString(ii * ny + jj)
                           && all[k + 1].pos == Vec3(-TpcX(p), TpcY(p, jj), TpcZ(p, ii)))
  {
    var m := if p.nCrmX == 2 then 2 else 1;
    forall r: nat, c: nat | r < RangeLen(p.nCrmZ) && c < RangeLen(p.nCrmY)
      ensures |TpcCells(p, tpcVol)(r, c)| == m
    {
      TpcCellLength(p, tpcVol, r, c);
    }
    GridAt(TpcCells(p, tpcVol), RangeLen(p.nCrmZ), RangeLen(p.nCrmY), m, ii, jj, 0);
    if m == 2 {
      GridAt(TpcCells(p, tpcVol), RangeLen(p.nCrmZ), RangeLen(p.nCrmY), m, ii, jj, 1);
    }
  }

  /** placeTPC: the source's loop, with pos_z carried across rows; each
      row is placed by PlaceTpcRow. */
  method PlaceTpc(p: CryoParams, tpcVol: string) returns (placed: seq<Placement>)
    ensures placed == TpcPlacements(p, tpcVol)
  {
    if !p.tpc {
      return [];
    }
    var posZ := -0.5 * p.encZ + 0.5 * p.lengthCrm;
    var idx: nat := 0;
    var ny := RangeLen(p.nCrmY);
    placed := [];
    for ii := 0 to RangeLen(p.nCrmZ)
      invariant placed == Grid(TpcCells(p, tpcVol), ii, ny)
      invariant idx == ii * ny
      invariant posZ == if ii == 0 then -0.5 * p.encZ + 0.5 * p.lengthCrm else TpcZ(p, ii - 1) + p.lengthCrm
    {
      posZ := posZ + Border(p.borderCrp, ii);
      var row;
      row, idx := PlaceTpcRow(p, tpcVol, ii, posZ, idx);
      GridStep(TpcCells(p, tpcVol), ny, ii);
      placed := placed + row;
      posZ := posZ + p.lengthCrm;
    }
  }

  /** The body of placeTPC's inner loop: the top placement, and the
      bottom one with two drift volumes. */
  method PlaceCrm(p: CryoParams, tpcVol: string, ii: nat, jj: nat, name: string, idx: nat, posY: real, posZ: real)
    returns (cell: seq<Placement>)
    requires name == Stem(tpcVol) && idx == ii * RangeLen(p.nCrmY) + jj
    requires posY == TpcY(p, jj) && posZ == TpcZ(p, ii)
    ensures cell == TpcCell(p, tpcVol, ii, jj)
  {
    var posX := 0.5 * p.encX - 0.5 * p.tpcX - p.anodePlateWidth;
    var posBottomX := -posX;
    cell := [Placement("placeTop" + name + "-" + NatToString(idx), tpcVol, Vec3(posX, posY, posZ), NoRot)];
    if p.nCrmX == 2 {
      cell := cell + [Placement("placeBot" + name + "-" + NatToString(idx), tpcVol, Vec3(posBottomX, posY, posZ), NoRot)];
    }
  }

  /** The inner loop of placeTPC for CRM row ii at z = posZ: pos_y carried
      across the columns, idx counted on. */
  method PlaceTpcRow(p: CryoParams, tpcVol: string, ii: nat, posZ: real, idx0: nat) returns (row: seq<Placement>, idx: nat)
    requires posZ == TpcZ(p, ii) && idx0 == ii * RangeLen(p.nCrmY)
    ensures row == Flatten(CellRow(TpcCells(p, tpcVol), ii), RangeLen(p.nCrmY))
    ensures idx == idx0 + RangeLen(p.nCrmY)
  {
    var name := RemoveAll(tpcVol, "vol");
    var posY := -0.5 * p.encY + 0.5 * p.widthCrm;
    idx := idx0;
    row := [];
    for jj := 0 to RangeLen(p.nCrmY)
      invariant row == Flatten(CellRow(TpcCells(p, tpcVol), ii), jj)
      invariant idx == idx0 + jj
      invariant posY == if jj == 0 then -0.5 * p.encY + 0.5 * p.widthCrm else TpcY(p, jj - 1) + p.widthCrm
    {
      posY := posY + Border(p.borderCrp, jj);
      var cell := PlaceCrm(p, tpcVol, ii, jj, name, idx, posY, posZ);
      TpcRowStep(p, tpcVol, ii, jj);
      row := row + cell;
      idx := idx + 1;
      posY := posY + p.widthCrm;
    }
  }

  lemma TpcRowStep(p: CryoParams, tpcVol: string, ii: nat, jj: nat)
    ensures Flatten(CellRow(TpcCells(p, tpcVol), ii), jj + 1)
            == Flatten(CellRow(TpcCells(p, tpcVol), ii), jj) + TpcCell(p, tpcVol, ii, jj)
  {
    RowStep(TpcCells(p, tpcVol), ii, jj);
  }

  // ---------------------------------------------------------------------------
  // placeOpDetsCathode

  /** Entry i of a four-entry offset list. */
  function Pick(t: (real, real, real, real), i: nat): real
    requires i < 4
  {
    if i == 0 then t.0 else if i == 1 then t.1 else if i == 2 then t.2 else t.3
  }

  /** The cathode frame centres: frame row ii, frame column jj. */
  function FrameX(p: CryoParams): real
  {
    0.5 * p.encX - p.tpcX - p.anodePlateWidth - 0.5 * p.heightCathode
  }

  function FrameY(p: CryoParams, ii: nat): real
  {
    Stepped(-0.5 * p.encY + 0.5 * p.widthCathode, p.widthCathode, ii)
  }

  function FrameZ(p: CryoParams, jj: nat): real
  {
    Stepped(-0.5 * p.encZ + 0.5 * p.lengthCathode, p.lengthCathode, jj)
  }

  /** The y offset entry arapuca `ara` of frame row ii uses: its own, but
      entry 2 for arapuca 0 of the first row and entry 1 for arapuca 3 of
      the last. */
  function YEntry(p: CryoParams, ii: nat, ara: nat): nat
    requires ara < 4
  {
    if ii == p.nCrmY / 2 - 1 && ara == 3 then 1 else if ii == 0 && ara == 0 then 2 else ara
  }

  /** The z offset entry: its own, but entry 0 for arapuca 1 of the first
      column and entry 3 for arapuca 2 of the last. */
  function ZEntry(p: CryoParams, jj: nat, ara: nat): nat
    requires ara < 4
  {
    if jj == p.nCrmZ / 2 - 1 && ara == 2 then 3 else if jj == 0 && ara == 1 then 0 else ara
  }

  const CathodeArapucaRotation: string := "rPlus90AboutXPlus90AboutZ"

  /** Arapuca `ara` of frame (ii, jj), frame number ii * (nCRM_z // 2) + jj. */
  function CathodeArapuca(p: CryoParams, araVol: string, ii: nat, jj: nat, ara: nat): Placement
    requires ara < 4
  {
    Placement("place" + Stem(araVol) + "Ara" + NatToString(ara) + "-" + NatToString(ii * RangeLen(p.nCrmZ / 2) + jj)
              + "_inTPCEnc", araVol,
              Vec3(FrameX(p), FrameY(p, ii) + Pick(p.posYBot, YEntry(p, ii, ara)),
                   FrameZ(p, jj) + Pick(p.posZBot, ZEntry(p, jj, ara))),
              CathodeArapucaRotation)
  }

  function Frame(p: CryoParams, araVol: string, ii: nat, jj: nat): seq<Placement>
  {
    seq(4, ara requires 0 <= ara < 4 => CathodeArapuca(p, araVol, ii, jj, ara))
  }

  function Frames(p: CryoParams, araVol: string): (nat, nat) -> seq<Placement>
  {
    (ii: nat, jj: nat) => Frame(p, araVol, ii, jj)
  }

  /** placeOpDetsCathode: nothing when pdsconfig is set; otherwise four
      arapucas per cathode frame, frame rows in y, frames in z. */
  function CathodeOpDets(p: CryoParams, araVol: string): seq<Placement>
  {
    if p.pdsconfig != 0 then [] else Grid(Frames(p, araVol), RangeLen(p.nCrmY / 2), RangeLen(p.nCrmZ / 2))
  }

  /** Frames sit one cathode width apart in y and one cathode length apart in z. */
  lemma FramePitch(p: CryoParams, ii: nat, jj: nat)
    ensures FrameY(p, ii) == -0.5 * p.encY + 0.5 * p.widthCathode + (ii as real) * p.widthCathode
    ensures FrameZ(p, jj) == -0.5 * p.encZ + 0.5 * p.lengthCathode + (jj as real) * p.lengthCathode
  {
    SteppedClosed(-0.5 * p.encY + 0.5 * p.widthCathode, p.widthCathode, ii);
    SteppedClosed(-0.5 * p.encZ + 0.5 * p.lengthCathode, p.lengthCathode, jj);
  }

  /** With pdsconfig 0, four arapucas per frame: arapuca `ara` of frame
      (ii, jj) is entry 4 (ii nz + jj) + ara, offset from the frame centre
      by the list entries of its own number, except for the four edge
      overrides. */
  lemma CathodeOpDetsPlaced(p: CryoParams, araVol: string, ii: nat, jj: nat, ara: nat)
    requires p.pdsconfig == 0 && ii < RangeLen(p.nCrmY / 2) && jj < RangeLen(p.nCrmZ / 2) && ara < 4
    ensures |CathodeOpDets(p, araVol)| == RangeLen(p.nCrmY / 2) * RangeLen(p.nCrmZ / 2) * 4
    ensures var ny, nz := RangeLen(p.nCrmY / 2), RangeLen(p.nCrmZ / 2);
            (ii * nz + jj) * 4 + ara < |CathodeOpDets(p, araVol)| &&
            var a := CathodeOpDets(p, araVol)[(ii * nz + jj) * 4 + ara];
            var y, z := a.pos.y - FrameY(p, ii), a.pos.z - FrameZ(p, jj);
            a.pos.x == FrameX(p) && a.rot == CathodeArapucaRotation
            && (ii == 0 && ara == 0 ==> y == p.posYBot.2)
            && (ii == ny - 1 && ara == 3 ==> y == p.posYBot.1)
            && (jj == 0 && ara == 1 ==> z == p.posZBot.0)
            && (jj == nz - 1 && ara == 2 ==> z == p.posZBot.3)
            && (0 < ii < ny - 1 ==> y == Pick(p.posYBot, ara))
            && (0 < jj < nz - 1 ==> z == Pick(p.posZBot, ara))
  {
    GridAt(Frames(p, araVol), RangeLen(p.nCrmY / 2), RangeLen(p.nCrmZ / 2), 4, ii, jj, ara);
  }

  /** placeOpDetsCathode: the source's three nested loops, with the frame
      centre carried across them. */
  method PlaceOpDetsCathode(p: CryoParams, araVol: string) returns (placed: seq<Placement>)
    ensures placed == CathodeOpDets(p, araVol)
  {
    if p.pdsconfig != 0 {
      return [];
    }
    var frCenterY := -0.5 * p.encY + 0.5 * p.widthCathode;
    var frCenterZ := -0.5 * p.encZ + 0.5 * p.lengthCathode;
    var idx: nat := 0;
    placed := [];
    for ii := 0 to RangeLen(p.nCrmY / 2)
      invariant placed == Grid(Frames(p, araVol), ii, RangeLen(p.nCrmZ / 2))
      invariant idx == ii * RangeLen(p.nCrmZ / 2)
      invariant frCenterY == FrameY(p, ii) && frCenterZ == FrameZ(p, 0)
    {
      var row;
      row, idx := PlaceFrameRow(p, araVol, ii, frCenterY, idx);
      GridStep(Frames(p, araVol), RangeLen(p.nCrmZ / 2), ii);
      placed := placed + row;
      frCenterY := frCenterY + p.widthCathode;
      frCenterZ := -0.5 * p.encZ + 0.5 * p.lengthCathode;
    }
  }

  /** One frame row of placeOpDetsCathode: the frames along z. */
  method PlaceFrameRow(p: CryoParams, araVol: string, ii: nat, frCenterY: real, idx0: nat)
    returns (row: seq<Placement>, idx: nat)
    requires frCenterY == FrameY(p, ii) && idx0 == ii * RangeLen(p.nCrmZ / 2)
    ensures row == Flatten(CellRow(Frames(p, araVol), ii), RangeLen(p.nCrmZ / 2))
    ensures idx == idx0 + RangeLen(p.nCrmZ / 2)
  {
    var frCenterZ := -0.5 * p.encZ + 0.5 * p.lengthCathode;
    idx := idx0;
    row := [];
    for jj := 0 to RangeLen(p.nCrmZ / 2)
      invariant row == Flatten(CellRow(Frames(p, araVol), ii), jj)
      invariant idx == idx0 + jj && frCenterZ == FrameZ(p, jj)
    {
      var frame := PlaceFrame(p, araVol, ii, jj, frCenterY, frCenterZ, idx);
      RowStep(Frames(p, araVol), ii, jj);
      row := row + frame;
      idx := idx + 1;
      frCenterZ := frCenterZ + p.lengthCathode;
    }
  }

  /** The four arapucas of frame (ii, jj), with the edge overrides applied
      in the source's order. */
  method PlaceFrame(p: CryoParams, araVol: string, ii: nat, jj: nat, frCenterY: real, frCenterZ: real, idx: nat)
    returns (frame: seq<Placement>)
    requires frCenterY == FrameY(p, ii) && frCenterZ == FrameZ(p, jj) && idx == ii * RangeLen(p.nCrmZ / 2) + jj
    ensures frame == Frame(p, araVol, ii, jj)
  {
    var name := RemoveAll(araVol, "vol");
    frame := [];
    for ara := 0 to 4
      invariant frame == Frame(p, araVol, ii, jj)[..ara]
    {
      var araX := 0.5 * p.encX - p.tpcX - p.anodePlateWidth - 0.5 * p.heightCathode;
      var araY := frCenterY + Pick(p.posYBot, ara);
      var araZ := frCenterZ + Pick(p.posZBot, ara);
      if jj == 0 && ara == 1 {
        araZ := frCenterZ + Pick(p.posZBot, 0);
      }
      if jj == p.nCrmZ / 2 - 1 && ara == 2 {
        araZ := frCenterZ + Pick(p.posZBot, 3);
      }
      if ii == 0 && ara == 0 {
        araY := frCenterY + Pick(p.posYBot, 2);
      }
      if ii == p.nCrmY / 2 - 1 && ara == 3 {
        araY := frCenterY + Pick(p.posYBot, 1);
      }
      var place := Placement("place" + name + "Ara" + NatToString(ara) + "-" + NatToString(idx) + "_inTPCEnc", araVol,
                             Vec3(araX, araY, araZ), "rPlus90AboutXPlus90AboutZ");
      assert place == CathodeArapuca(p, araVol, ii, jj, ara);
      assert Frame(p, araVol, ii, jj)[..ara + 1] == Frame(p, araVol, ii, jj)[..ara] + [place];
      frame := frame + [place];
    }
  }

  // ---------------------------------------------------------------------------
  // placeFieldShaper

  /** The number of shapers placed: int(NFieldShapers) + 1. */
  function ShaperCount(p: CryoParams): nat
  {
    RangeLen(Dicts.Trunc(p.nFieldShapers) + 1)
  }

  /** Shaper i's x: from the anode side of the drift, half a separation in
      and i separations on; with two drift volumes from the cathode's far
      side, going the other way. */
  function ShaperX(p: CryoParams, i: nat): real
  {
    var anode := 0.5 * p.argonX - p.heightGasAr - (p.drift + p.readoutPlane);
    if p.nCrmX == 2 then anode - p.heightCathode - (i as real + 0.5) * p.separation
    else anode + (i as real + 0.5) * p.separation
  }

  /** A shaper is thick when pdsconfig is 0 and it lies within 250 cm of the first. */
  predicate Thick(p: CryoParams, i: nat)
  {
    p.pdsconfig == 0 && (i as real) * p.separation <= 250.0
  }

  const ShaperRotation: string := "rPlus90AboutZ"

  function FieldShaper(p: CryoParams, fsVol: string, slimVol: string, i: nat): Placement
  {
    var vol := if Thick(p, i) then fsVol else slimVol;
    Placement("place" + vol + NatToString(i) + "_inCryo", vol,
              Vec3(ShaperX(p, i), -0.5 * p.shortTubeLength - p.torRad, 0.0), ShaperRotation)
  }

  /** placeFieldShaper: nothing without the field-cage switch; otherwise
      one shaper per step. */
  function FieldShapers(p: CryoParams, fsVol: string, slimVol: string): seq<Placement>
  {
    if p.fieldCageSwitch then seq(ShaperCount(p), i requires 0 <= i => FieldShaper(p, fsVol, slimVol, i)) else []
  }

  /** With the switch on, int(NFieldShapers) + 1 shapers, none when that
      is negative. */
  lemma ShaperTotal(p: CryoParams, fsVol: string, slimVol: string)
    requires p.fieldCageSwitch
    ensures var n := Dicts.Trunc(p.nFieldShapers) + 1;
            |FieldShapers(p, fsVol, slimVol)| == (if n < 0 then 0 else n)
  {
  }

  /** Shaper i is thick exactly when pdsconfig is 0 and i separations are
      at most 250 cm; every shaper is turned about z. */
  lemma ShaperKind(p: CryoParams, fsVol: string, slimVol: string, i: nat)
    requires p.fieldCageSwitch && fsVol != slimVol && i < ShaperCount(p)
    ensures var a := FieldShapers(p, fsVol, slimVol)[i];
            (a.volume == fsVol <==> p.pdsconfig == 0 && (i as real) * p.separation <= 250.0)
            && a.rot == ShaperRotation
  {
  }

  /** Neighbouring shapers are one separation apart, away from the anode,
      towards it with two drift volumes. */
  lemma ShaperSpacing(p: CryoParams, fsVol: string, slimVol: string, i: nat)
    requires p.fieldCageSwitch && i + 1 < ShaperCount(p)
    ensures var all := FieldShapers(p, fsVol, slimVol);
            all[i + 1].pos.x - all[i].pos.x == (if p.nCrmX == 2 then -p.separation else p.separation)
  {
    var all := FieldShapers(p, fsVol, slimVol);
    assert all[i].pos.x == ShaperX(p, i) && all[i + 1].pos.x == ShaperX(p, i + 1);
    ShaperStep(p, i);
  }

  lemma ShaperStep(p: CryoParams, i: nat)
    ensures ShaperX(p, i + 1) - ShaperX(p, i) == (if p.nCrmX == 2 then -p.separation else p.separation)
  {
    var a, b := i as real + 0.5, (i + 1) as real + 0.5;
    assert b * p.separation == a * p.separation + p.separation;
  }

  /** With a positive separation the thick shapers come first. */
  lemma ThickFirst(p: CryoParams, i: nat, j: nat)
    requires p.separation > 0.0 && i <= j && Thick(p, j)
    ensures Thick(p, i)
  {
    assert (i as real) * p.separation <= (j as real) * p.separation;
  }

  /** placeFieldShaper: the source's loop. */
  method PlaceFieldShaper(p: CryoParams, fsVol: string, slimVol: string) returns (placed: seq<Placement>)
    ensures placed == FieldShapers(p, fsVol, slimVol)
  {
    if !p.fieldCageSwitch {
      return [];
    }
    var reversed := p.nCrmX == 2;
    var posY := -0.5 * p.shortTubeLength - p.torRad;
    var posZ := 0.0;
    placed := [];
    for i := 0 to RangeLen(Dicts.Trunc(p.nFieldShapers) + 1)
      invariant placed == FieldShapers(p, fsVol, slimVol)[..i]
    {
      var dist := (i as real) * p.separation;
      var posX := 0.5 * p.argonX - p.heightGasAr - (p.drift + p.readoutPlane) + (i as real + 0.5) * p.separation;
      if reversed {
        posX := 0.5 * p.argonX - p.heightGasAr - (p.drift + p.readoutPlane) - p.heightCathode
                - (i as real + 0.5) * p.separation;
      }
      var place;
      if p.pdsconfig == 0 && dist <= 250.0 {
        place := Placement("place" + fsVol + NatToString(i) + "_inCryo", fsVol, Vec3(posX, posY, posZ), "rPlus90AboutZ");
      } else {
        place := Placement("place" + slimVol + NatToString(i) + "_inCryo", slimVol, Vec3(posX, posY, posZ), "rPlus90AboutZ");
      }
      assert place == FieldShaper(p, fsVol, slimVol, i);
      assert FieldShapers(p, fsVol, slimVol)[..i + 1] == FieldShapers(p, fsVol, slimVol)[..i] + [place];
      placed := placed + [place];
    }
  }

  // ---------------------------------------------------------------------------
  // The membrane photon detectors

  /** The frame centre x on the wall and the z of the first frame. */
  function WallX(p: CryoParams): real
  {
    0.5 * p.argonX - p.heightGasAr - 0.5 * p.padWidth
  }

  function WallZ(p: CryoParams, j: nat): real
  {
    Stepped(-19.0 * 0.5 * p.lengthCathode + ((40 - p.nCrmZ) as real) * 0.25 * p.lengthCathode, p.lengthCathode, j)
  }

  /** The x of arapuca `ara` in a wall column, carried from one arapuca to
      the next: every fourth one starts a group, at the first frame's
      distance below the wall centre for the first eight and mirrored
      through the buffer after them; within a group each is one vertical
      spacing below the one before, above it after the first eight. */
  function LateralX(p: CryoParams, ara: nat): real
  {
    if ara % 4 != 0 then LateralX(p, ara - 1) - (if ara < 8 then p.verticalPdDist else -p.verticalPdDist)
    else if ara < 8 then WallX(p) - p.firstFrameVertDist
    else -LateralX(p, ara - 1) - p.heightGasAr + p.xLArBuffer
  }

  /** The distance of the long walls' arapucas from the centre plane. */
  function LateralY(p: CryoParams): real
  {
    0.5 * p.argonY - p.frameToArapucaSpaceLat
  }

  /** Arapucas ara % 8 < 4 go on the negative side, unrotated; the others
      on the positive side, turned about x. */
  predicate NegativeSide(ara: nat)
  {
    ara % 8 < 4
  }

  function LateralArapuca(p: CryoParams, araVol: string, j: nat, ara: nat): Placement
  {
    Placement("place" + Stem(araVol) + NatToString(ara) + "-Lat" + NatToString(j), araVol,
               Vec3(LateralX(p, ara), if NegativeSide(ara) then -LateralY(p) else LateralY(p), WallZ(p, j)),
               if NegativeSide(ara) then "rIdentity" else "rPlus180AboutX")
  }

  function Laterals(p: CryoParams, araVol: string): (nat, nat) -> seq<Placement>
  {
    OneEach((j: nat, ara: nat) => LateralArapuca(p, araVol, j, ara))
  }

  /** placeOpDetsLateral: only with pdsconfig 0 and eight CRM rows; then
      8 nCRM_x arapucas per frame column on the long walls. */
  function LateralOpDets(p: CryoParams, araVol: string): seq<Placement>
  {
    if p.pdsconfig != 0 || p.nCrmY != 8 then [] else Grid(Laterals(p, araVol), RangeLen(p.nCrmZ / 2), RangeLen(8 * p.nCrmX))
  }

  /** In the first group of eight, arapuca `ara` hangs ara % 4 vertical
      spacings below the first frame. */
  lemma {:induction false} LateralXFirstEight(p: CryoParams, ara: nat)
    requires ara < 8
    ensures LateralX(p, ara) == WallX(p) - p.firstFrameVertDist - ((ara % 4) as real) * p.verticalPdDist
  {
    if ara % 4 != 0 {
      LateralXFirstEight(p, ara - 1);
      assert (ara - 1) % 4 == ara % 4 - 1;
    }
  }

  /** The group after the first eight starts at the mirror image of the
      last arapuca placed, through the gas height and the buffer. */
  lemma LateralXMirror(p: CryoParams)
    ensures LateralX(p, 8) == -(WallX(p) - p.firstFrameVertDist - 3.0 * p.verticalPdDist) - p.heightGasAr + p.xLArBuffer
  {
    LateralXFirstEight(p, 7);
    assert 7 % 4 == 3;
    assert LateralX(p, 8) == -LateralX(p, 7) - p.heightGasAr + p.xLArBuffer;
  }

  /** The second group of eight climbs back: arapuca 15 returns to the x of
      arapuca 7. */
  lemma LateralXFifteen(p: CryoParams)
    ensures LateralX(p, 15) == LateralX(p, 7)
  {
    var a, v := LateralX(p, 7), p.verticalPdDist;
    var m := -a - p.heightGasAr + p.xLArBuffer;
    assert LateralX(p, 8) == m;
    assert LateralX(p, 9) == m + v;
    assert LateralX(p, 10) == m + 2.0 * v;
    assert LateralX(p, 11) == m + 3.0 * v;
    assert LateralX(p, 12) == a - 3.0 * v;
    assert LateralX(p, 13) == a - 2.0 * v;
    assert LateralX(p, 14) == a - v;
  }

  /** After the first eight the x repeats every eight arapucas. */
  lemma {:induction false} LateralXPeriodic(p: CryoParams, ara: nat)
    requires ara >= 8
    ensures LateralX(p, ara + 8) == LateralX(p, ara)
  {
    if ara % 4 != 0 {
      LateralXPeriodic(p, ara - 1);
    } else if ara == 8 {
      LateralXFifteen(p);
    } else {
      LateralXPeriodic(p, ara - 1);
    }
  }

  /** From two CRM rows on (16 or more arapucas per column), arapuca 15 of
      a column is placed at the position and with the rotation of arapuca 7,
      and each arapuca from the ninth on at those of the one eight before. */
  lemma LateralOverlap(p: CryoParams, araVol: string, j: nat, ara: nat)
    requires ara >= 8
    ensures LateralArapuca(p, araVol, j, 15).pos == LateralArapuca(p, araVol, j, 7).pos
    ensures LateralArapuca(p, araVol, j, 15).rot == LateralArapuca(p, araVol, j, 7).rot
    ensures LateralArapuca(p, araVol, j, ara + 8).pos == LateralArapuca(p, araVol, j, ara).pos
    ensures LateralArapuca(p, araVol, j, ara + 8).rot == LateralArapuca(p, araVol, j, ara).rot
  {
    LateralXFifteen(p);
    LateralXPeriodic(p, ara);
    assert (ara + 8) % 8 == ara % 8;
  }

  /** With pdsconfig 0 and eight rows, nCRM_z // 2 columns of 8 nCRM_x
      arapucas, arapuca `ara` of column j at entry j (8 nCRM_x) + ara. */
  lemma LateralPlaced(p: CryoParams, araVol: string, j: nat, ara: nat)
    requires p.pdsconfig == 0 && p.nCrmY == 8 && j < RangeLen(p.nCrmZ / 2) && ara < RangeLen(8 * p.nCrmX)
    ensures |LateralOpDets(p, araVol)| == RangeLen(p.nCrmZ / 2) * RangeLen(8 * p.nCrmX)
    ensures var k := CellIndex(j, RangeLen(8 * p.nCrmX), ara);
            k < |LateralOpDets(p, araVol)| && LateralOpDets(p, araVol)[k] == LateralArapuca(p, araVol, j, ara)
  {
    OneEachAt((j: nat, ara: nat) => LateralArapuca(p, araVol, j, ara), RangeLen(p.nCrmZ / 2), RangeLen(8 * p.nCrmX), j, ara);
  }

  /** A long-wall arapuca sits at its column's z and its carried x, on the
      negative side unrotated exactly when ara % 8 < 4. */
  lemma LateralSides(p: CryoParams, araVol: string, j: nat, ara: nat)
    requires LateralY(p) != 0.0
    ensures var a := LateralArapuca(p, araVol, j, ara);
            a.pos.z == WallZ(p, j) && a.pos.x == LateralX(p, ara)
            && (a.pos.y == -LateralY(p) && a.rot == "rIdentity" <==> NegativeSide(ara))
            && (!NegativeSide(ara) ==> a.pos.y == LateralY(p) && a.rot == "rPlus180AboutX")
  {
  }

  /** placeOpDetsLateral: the source's loops, with ara_x carried from one
      arapuca to the next. */
  method PlaceOpDetsLateral(p: CryoParams, araVol: string) returns (placed: seq<Placement>)
    ensures placed == LateralOpDets(p, araVol)
  {
    if p.pdsconfig != 0 || p.nCrmY != 8 {
      return [];
    }
    var frCenterZ := -19.0 * 0.5 * p.lengthCathode + ((40 - p.nCrmZ) as real) * 0.25 * p.lengthCathode;
    placed := [];
    for j := 0 to RangeLen(p.nCrmZ / 2)
      invariant placed == Grid(Laterals(p, araVol), j, RangeLen(8 * p.nCrmX))
      invariant frCenterZ == WallZ(p, j)
    {
      var column := PlaceLateralColumn(p, araVol, j, frCenterZ);
      GridStep(Laterals(p, araVol), RangeLen(8 * p.nCrmX), j);
      placed := placed + column;
      frCenterZ := frCenterZ + p.lengthCathode;
    }
  }

  /** The update of ara_x at arapuca `ara` of a column. */
  method NextLateralX(p: CryoParams, ara: nat, araX: real) returns (x: real)
    requires ara > 0 ==> araX == LateralX(p, ara - 1)
    ensures x == LateralX(p, ara)
  {
    var frCenterX := 0.5 * p.argonX - p.heightGasAr - 0.5 * p.padWidth;
    x := araX;
    if ara % 4 != 0 {
      x := x - (if ara < 8 then p.verticalPdDist else -p.verticalPdDist);
    } else if ara < 8 {
      x := frCenterX - p.firstFrameVertDist;
    } else {
      x := -x - p.heightGasAr + p.xLArBuffer;
    }
  }

  /** The inner loop of placeOpDetsLateral for frame column j. */
  method PlaceLateralColumn(p: CryoParams, araVol: string, j: nat, araZ: real) returns (column: seq<Placement>)
    requires araZ == WallZ(p, j)
    ensures column == Flatten(CellRow(Laterals(p, araVol), j), RangeLen(8 * p.nCrmX))
  {
    var name := RemoveAll(araVol, "vol");
    var araX := 0.5 * p.argonX - p.heightGasAr - 0.5 * p.padWidth - p.firstFrameVertDist;
    column := [];
    for ara := 0 to RangeLen(8 * p.nCrmX)
      invariant column == Flatten(CellRow(Laterals(p, araVol), j), ara)
      invariant ara > 0 ==> araX == LateralX(p, ara - 1)
    {
      araX := NextLateralX(p, ara, araX);
      var araY := 0.5 * p.argonY - p.frameToArapucaSpaceLat;
      var rotation := "rPlus180AboutX";
      if ara % 8 < 4 {
        araY := -araY;
        rotation := "rIdentity";
      }
      var place := Placement("place" + name + NatToString(ara) + "-Lat" + NatToString(j), araVol,
                             Vec3(araX, araY, araZ), rotation);
      assert place == LateralArapuca(p, araVol, j, ara);
      RowStep(Laterals(p, araVol), j, ara);
      column := column + [place];
    }
  }

  /** The short walls: the same arapuca columns at y = -220 cm and +220 cm,
      on the upstream side (ara % 8 < 4) turned by -90 degrees about x,
      on the downstream side by +90 degrees. */
  function ShortLateralArapuca(p: CryoParams, araVol: string, j: nat, ara: nat): Placement
  {
    var z := 0.5 * p.argonZ - p.frameToArapucaSpaceLat;
    Placement("place" + Stem(araVol) + NatToString(ara) + "-ShortLat" + NatToString(j), araVol,
               Vec3(LateralX(p, ara), if j != 0 then 220.0 else -220.0, if NegativeSide(ara) then -z else z),
               if NegativeSide(ara) then "rMinus90AboutX" else "rPlus90AboutX")
  }

  function ShortLaterals(p: CryoParams, araVol: string): (nat, nat) -> seq<Placement>
  {
    OneEach((j: nat, ara: nat) => ShortLateralArapuca(p, araVol, j, ara))
  }

  /** placeOpDetsShortLateral: under the same conditions as the long walls,
      two columns of 8 nCRM_x arapucas. */
  function ShortLateralOpDets(p: CryoParams, araVol: string): seq<Placement>
  {
    if p.pdsconfig != 0 || p.nCrmY != 8 then [] else Grid(ShortLaterals(p, araVol), 2, RangeLen(8 * p.nCrmX))
  }

  /** The short-wall columns hold the long-wall arapucas' x positions, at
      y = -220 cm and +220 cm. */
  lemma ShortLateralPlaced(p: CryoParams, araVol: string, j: nat, ara: nat)
    requires p.pdsconfig == 0 && p.nCrmY == 8 && j < 2 && ara < RangeLen(8 * p.nCrmX)
    ensures |ShortLateralOpDets(p, araVol)| == 2 * RangeLen(8 * p.nCrmX)
    ensures var k := CellIndex(j, RangeLen(8 * p.nCrmX), ara);
            k < |ShortLateralOpDets(p, araVol)| &&
            var a := ShortLateralOpDets(p, araVol)[k];
            a.pos.x == LateralX(p, ara) && a.pos.y == (if j == 0 then -220.0 else 220.0)
            && (a.rot == "rMinus90AboutX" <==> NegativeSide(ara))
            && a.pos.z == (if NegativeSide(ara) then -1.0 else 1.0) * (0.5 * p.argonZ - p.frameToArapucaSpaceLat)
  {
    OneEachAt((j: nat, ara: nat) => ShortLateralArapuca(p, araVol, j, ara), 2, RangeLen(8 * p.nCrmX), j, ara);
  }

  /** placeOpDetsShortLateral: the source's loops. */
  method PlaceOpDetsShortLateral(p: CryoParams, araVol: string) returns (placed: seq<Placement>)
    ensures placed == ShortLateralOpDets(p, araVol)
  {
    if p.pdsconfig != 0 || p.nCrmY != 8 {
      return [];
    }
    placed := [];
    for j := 0 to 2
      invariant placed == Grid(ShortLaterals(p, araVol), j, RangeLen(8 * p.nCrmX))
    {
      var frCenterY := if j != 0 then 220.0 else -220.0;
      var column := PlaceShortLateralColumn(p, araVol, j, frCenterY);
      GridStep(ShortLaterals(p, araVol), RangeLen(8 * p.nCrmX), j);
      placed := placed + column;
    }
  }

  method PlaceShortLateralColumn(p: CryoParams, araVol: string, j: nat, frCenterY: real) returns (column: seq<Placement>)
    requires frCenterY == if j != 0 then 220.0 else -220.0
    ensures column == Flatten(CellRow(ShortLaterals(p, araVol), j), RangeLen(8 * p.nCrmX))
  {
    var name := RemoveAll(araVol, "vol");
    var araX := 0.5 * p.argonX - p.heightGasAr - 0.5 * p.padWidth - p.firstFrameVertDist;
    column := [];
    for ara := 0 to RangeLen(8 * p.nCrmX)
      invariant column == Flatten(CellRow(ShortLaterals(p, araVol), j), ara)
      invariant ara > 0 ==> araX == LateralX(p, ara - 1)
    {
      araX := NextLateralX(p, ara, araX);
      var araZ := 0.5 * p.argonZ - p.frameToArapucaSpaceLat;
      var rotation := "rPlus90AboutX";
      if ara % 8 < 4 {
        araZ := -araZ;
        rotation := "rMinus90AboutX";
      }
      var place := Placement("place" + name + NatToString(ara) + "-ShortLat" + NatToString(j), araVol,
                             Vec3(araX, frCenterY, araZ), rotation);
      assert place == ShortLateralArapuca(p, araVol, j, ara);
      RowStep(ShortLaterals(p, araVol), j, ara);
      column := column + [place];
    }
  }

  /** The membrane-only layout: two columns of nine arapucas per frame
      column, at the TPC's edge; arapucas 0 and 9 half an arapuca in, the
      others one arapuca less the frame spacing further. */
  function MembX(p: CryoParams, ara: nat): real
  {
    var first := 0.5 * p.tpcX - 0.5 * p.padWidth - 0.5 * p.arapucaOutX;
    if ara != 0 && ara != 9 then first - (p.arapucaOutX - p.frameToArapucaSpace) else first
  }

  function MembArapuca(p: CryoParams, araVol: string, j: nat, ara: nat): Placement
  {
    Placement("place" + Stem(araVol) + NatToString(ara) + "-Lat" + NatToString(j), araVol,
               Vec3(MembX(p, ara), if ara < 9 then -LateralY(p) else LateralY(p), WallZ(p, j)),
               if ara < 9 then "rIdentity" else "rPlus180AboutX")
  }

  function Membs(p: CryoParams, araVol: string): (nat, nat) -> seq<Placement>
  {
    OneEach((j: nat, ara: nat) => MembArapuca(p, araVol, j, ara))
  }

  /** placeOpDetsMembOnly: only with pdsconfig 1 and eight CRM rows; then
      eighteen arapucas per frame column. */
  function MembOnlyOpDets(p: CryoParams, araVol: string): seq<Placement>
  {
    if p.pdsconfig != 1 || p.nCrmY != 8 then [] else Grid(Membs(p, araVol), RangeLen(p.nCrmZ / 2), 18)
  }

  /** Eighteen per frame column: arapuca `ara` of column j is entry
      18 j + ara. */
  lemma MembOnlyPlaced(p: CryoParams, araVol: string, j: nat, ara: nat)
    requires p.pdsconfig == 1 && p.nCrmY == 8 && j < RangeLen(p.nCrmZ / 2) && ara < 18
    ensures |MembOnlyOpDets(p, araVol)| == RangeLen(p.nCrmZ / 2) * 18
    ensures j * 18 + ara < |MembOnlyOpDets(p, araVol)| && MembOnlyOpDets(p, araVol)[j * 18 + ara] == MembArapuca(p, araVol, j, ara)
  {
    OneEachAt((j: nat, ara: nat) => MembArapuca(p, araVol, j, ara), RangeLen(p.nCrmZ / 2), 18, j, ara);
    assert CellIndex(j, 18, ara) == j * 18 + ara;
  }

  /** The first nine of a column on the negative side, unrotated, the other
      nine on the positive side; arapucas 0 and 9 at the first x, the others
      one arapuca less the frame spacing further in. */
  lemma MembSides(p: CryoParams, araVol: string, j: nat, ara: nat)
    requires LateralY(p) != 0.0
    ensures var a := MembArapuca(p, araVol, j, ara);
            a.pos.z == WallZ(p, j)
            && (a.pos.y == -LateralY(p) && a.rot == "rIdentity" <==> ara < 9)
            && (ara != 0 && ara != 9 ==> MembX(p, 0) - a.pos.x == p.arapucaOutX - p.frameToArapucaSpace)
            && (ara == 9 ==> a.pos.x == MembX(p, 0))
  {
  }

  /** The long-wall layouts exclude each other: pdsconfig 0 places the
      lateral arapucas, pdsconfig 1 the membrane-only ones, and the cathode
      arapucas come only with the lateral ones' pdsconfig. */
  lemma WallLayoutsExclusive(p: CryoParams, araVol: string)
    ensures LateralOpDets(p, araVol) == [] || MembOnlyOpDets(p, araVol) == []
    ensures MembOnlyOpDets(p, araVol) != [] ==> CathodeOpDets(p, araVol) == []
  {
  }

  /** placeOpDetsMembOnly: the source's loops. */
  method PlaceOpDetsMembOnly(p: CryoParams, araVol: string) returns (placed: seq<Placement>)
    ensures placed == MembOnlyOpDets(p, araVol)
  {
    if p.pdsconfig != 1 || p.nCrmY != 8 {
      return [];
    }
    var frCenterZ := -19.0 * 0.5 * p.lengthCathode + ((40 - p.nCrmZ) as real) * 0.25 * p.lengthCathode;
    placed := [];
    for j := 0 to RangeLen(p.nCrmZ / 2)
      invariant placed == Grid(Membs(p, araVol), j, 18)
      invariant frCenterZ == WallZ(p, j)
    {
      var column := PlaceMembColumn(p, araVol, j, frCenterZ);
      GridStep(Membs(p, araVol), 18, j);
      placed := placed + column;
      frCenterZ := frCenterZ + p.lengthCathode;
    }
  }

  method PlaceMembColumn(p: CryoParams, araVol: string, j: nat, frCenterZ: real) returns (column: seq<Placement>)
    requires frCenterZ == WallZ(p, j)
    ensures column == Flatten(CellRow(Membs(p, araVol), j), 18)
  {
    var name := RemoveAll(araVol, "vol");
    var frCenterX := 0.5 * p.tpcX - 0.5 * p.padWidth;
    column := [];
    for ara := 0 to 18
      invariant column == Flatten(CellRow(Membs(p, araVol), j), ara)
    {
      var araZ := frCenterZ;
      var araX := frCenterX - 0.5 * p.arapucaOutX;
      if ara != 0 && ara != 9 {
        araX := araX - (p.arapucaOutX - p.frameToArapucaSpace);
      }
      var araY := 0.5 * p.argonY - p.frameToArapucaSpaceLat;
      var rotation := "rPlus180AboutX";
      if ara < 9 {
        araY := -araY;
        rotation := "rIdentity";
      }
      assert araX == MembX(p, ara);
      var place := Placement("place" + name + NatToString(ara) + "-Lat" + NatToString(j), araVol,
                             Vec3(araX, araY, araZ), rotation);
      assert place == MembArapuca(p, araVol, j, ara);
      MembStep(p, araVol, j, ara);
      column := column + [place];
    }
  }

  lemma MembStep(p: CryoParams, araVol: string, j: nat, ara: nat)
    ensures Flatten(CellRow(Membs(p, araVol), j), ara + 1)
            == Flatten(CellRow(Membs(p, araVol), j), ara) + [MembArapuca(p, araVol, j, ara)]
  {
    RowStep(Membs(p, araVol), j, ara);
  }
}
