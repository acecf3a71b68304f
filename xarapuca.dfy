/** The X-ARAPUCA photon-detector builder of ProtoDUNE-VD: the derived
    parameters its configure step adds, the four tiles over each
    cathode module and the eight tiles on each lateral wall. */
module XArapuca {
  import opened Wrappers
  import opened Placements
  import opened Dicts

  // Dictionary keys the builder reads and writes.
  const WidthVoid: string := "widthCathodeVoid"
  const LengthVoid: string := "lengthCathodeVoid"
  const Border: string := "CathodeBorder"
  const WidthCathode: string := "widthCathode"
  const GapPD: string := "GapPD"
  const OutX: string := "ArapucaOut_x"
  const OutY: string := "ArapucaOut_y"
  const WindowY: string := "ArapucaAcceptanceWindow_y"
  const MeshBase: string := "MeshInnerStructureSeparation_base"
  const RodOuter: string := "MeshRodOuterRadius"
  const MeshOuter: string := "MeshOuterRadius"
  const RodSeparation: string := "CathodeArapucaMeshRodSeparation"
  const FrameToFC: string := "CathodeFrameToFC"
  const FCToArapuca: string := "FCToArapucaSpaceLat"
  const UpperFirst: string := "Upper_FirstFrameVertDist"
  const LowerFirst: string := "Lower_FirstFrameVertDist"
  const VerticalDist: string := "VerticalPDdist"
  const MeshSeparation: string := "MeshInnerStructureSeparation"
  const BarsVertical: string := "CathodeArapucaMeshNumberOfBars_vertical"
  const BarsHorizontal: string := "CathodeArapucaMeshNumberOfBars_horizontal"
  const MeshWindow: string := "Distance_Mesh_Window"

  /** Python truthiness of an optional dictionary: present and non-empty. */
  predicate Present(d: Option<map<string, real>>)
  {
    d.Some? && |d.value| > 0
  }

  /** The cathode-frame quantities the tiles over a cathode module use. */
  datatype Frame = Frame(widthVoid: real, border: real, gap: real, outX: real, lengthVoid: real)

  /** Reads the frame in the order the source first uses its entries
      (`c` is the cathode dictionary, `p` the X-ARAPUCA one). */
  function ReadFrame(p: Option<map<string, real>>, c: Option<map<string, real>>): (r: Result<Frame>)
    ensures r.Ok? ==> p.Some? && c.Some? && GapPD in p.value && OutX in p.value
    ensures r.Ok? ==> WidthVoid in c.value && Border in c.value && LengthVoid in c.value
    ensures r.Ok? ==> r.value == Frame(c.value[WidthVoid], c.value[Border], p.value[GapPD], p.value[OutX], c.value[LengthVoid])
    ensures (p.Some? && c.Some? && GapPD in p.value && OutX in p.value && WidthVoid in c.value
             && Border in c.value && LengthVoid in c.value) ==> r.Ok?
  {
    var wv :- Get(c, WidthVoid);
    var b :- Get(c, Border);
    var gap :- Get(p, GapPD);
    var outX :- Get(p, OutX);
    var lv :- Get(c, LengthVoid);
    Ok(Frame(wv, b, gap, outX, lv))
  }

  /** The first and second tile's offsets across the frame (y) and along it (z). */
  function FirstY(f: Frame): real { -2.0 * f.widthVoid - 2.0 * f.border + f.gap + 0.5 * f.outX }
  function SecondY(f: Frame): real { -f.border - f.gap - 0.5 * f.outX }
  function FirstZ(f: Frame): real { 0.5 * f.lengthVoid + f.border }
  function SecondZ(f: Frame): real { -1.5 * f.lengthVoid - 2.0 * f.border }

  /** What configure stores in `list_posx_bot` (used as y offsets) and
      `list_posz_bot`: the third and fourth tiles mirror the second and first. */
  function BottomY(f: Frame): seq<real>
  {
    [FirstY(f), SecondY(f), -SecondY(f), -FirstY(f)]
  }

  function BottomZ(f: Frame): seq<real>
  {
    [FirstZ(f), SecondZ(f), -SecondZ(f), -FirstZ(f)]
  }

  /** The builder's state: both dictionaries, the two offset lists (absent
      until both dictionaries are given) and the configured flag. */
  datatype XaState = XaState(params: Option<map<string, real>>, cathode: Option<map<string, real>>,
                             posyBot: Option<seq<real>>, poszBot: Option<seq<real>>, configured: bool)

  /** The mesh bar counts: whole rod spacings in the void length and width;
      a zero spacing is a division by zero. */
  function MeshBars(p: map<string, real>, c: map<string, real>): (r: Result<(int, int)>)
    ensures r.Ok? ==> LengthVoid in c && WidthVoid in c && RodSeparation in p && p[RodSeparation] != 0.0
    ensures r.Ok? ==> r.value == (Trunc(c[LengthVoid] / p[RodSeparation]), Trunc(c[WidthVoid] / p[RodSeparation]))
    ensures RodSeparation in p && p[RodSeparation] == 0.0 && LengthVoid in c ==> r == Err(ZeroDivisionError)
  {
    var lv :- Get(Some(c), LengthVoid);
    var sep :- Get(Some(p), RodSeparation);
    if sep == 0.0 then Err(ZeroDivisionError)
    else
      var wv :- Get(Some(c), WidthVoid);
      Ok((Trunc(lv / sep), Trunc(wv / sep)))
  }

  /** The derived entries configure adds to the X-ARAPUCA dictionary: the
      mesh separation, the bar counts (only with a cathode dictionary) and
      the mesh-to-window distance. */
  function Derive(p: map<string, real>, c: Option<map<string, real>>): (r: Result<map<string, real>>)
    ensures r.Ok? ==> MeshBase in p && RodOuter in p && MeshOuter in p
    ensures r.Ok? ==> r.value.Keys == p.Keys + {MeshSeparation, MeshWindow} + (if Present(c) then {BarsVertical, BarsHorizontal} else {})
    ensures r.Ok? ==> r.value[MeshSeparation] == p[MeshBase] + p[RodOuter] && r.value[MeshWindow] == 1.8 + p[MeshOuter]
    ensures r.Ok? && Present(c) ==>
              (MeshBars(p, c.value).Ok?
               && r.value[BarsVertical] == MeshBars(p, c.value).value.0 as real
               && r.value[BarsHorizontal] == MeshBars(p, c.value).value.1 as real)
    ensures r.Ok? ==> forall k :: k in p && k !in {MeshSeparation, MeshWindow, BarsVertical, BarsHorizontal} ==> r.value[k] == p[k]
  {
    var base :- Get(Some(p), MeshBase);
    var rod :- Get(Some(p), RodOuter);
    var p1 := p[MeshSeparation := base + rod];
    var p2 :- if Present(c) then
                var bars :- MeshBars(p, c.value);
                Ok(p1[BarsVertical := bars.0 as real][BarsHorizontal := bars.1 as real])
              else Ok(p1);
    var outer :- Get(Some(p), MeshOuter);
    Ok(p2[MeshWindow := 1.8 + outer])
  }

  /** The offset lists configure stores: computed when both dictionaries
      are present, otherwise the ones already held. */
  function BottomLists(params: Option<map<string, real>>, cathode: Option<map<string, real>>,
                       held: (Option<seq<real>>, Option<seq<real>>)): (r: Result<(Option<seq<real>>, Option<seq<real>>)>)
    ensures !(Present(params) && Present(cathode)) ==> r == Ok(held)
    ensures Present(params) && Present(cathode) ==>
              (r.Ok? <==> ReadFrame(params, cathode).Ok?)
    ensures Present(params) && Present(cathode) && r.Ok? ==>
              r.value == (Some(BottomY(ReadFrame(params, cathode).value)), Some(BottomZ(ReadFrame(params, cathode).value)))
  {
    if Present(params) && Present(cathode) then
      var f :- ReadFrame(params, cathode);
      Ok((Some(BottomY(f)), Some(BottomZ(f))))
    else Ok(held)
  }

  /** The X-ARAPUCA dictionary after configure: with its derived entries
      when it is present. */
  function DerivedParams(params: Option<map<string, real>>, cathode: Option<map<string, real>>): (r: Result<Option<map<string, real>>>)
    ensures !Present(params) ==> r == Ok(params)
    ensures Present(params) ==> (r.Ok? <==> Derive(params.value, cathode).Ok?)
    ensures Present(params) && r.Ok? ==> r.value == Some(Derive(params.value, cathode).value)
  {
    if Present(params) then
      var d :- Derive(params.value, cathode);
      Ok(Some(d))
    else Ok(params)
  }

  /** configure: a second call returns at once; otherwise non-empty
      dictionaries replace the stored ones, the offset lists are computed when
      both are present, the derived entries are added, and the builder is
      marked configured. */
  function ConfigureState(s: XaState, xp: map<string, real>, cp: map<string, real>): (r: Result<XaState>)
    ensures s.configured ==> r == Ok(s)
    ensures r.Ok? ==> r.value.configured
    ensures r.Ok? && !s.configured ==> r.value.cathode == (if |cp| > 0 then Some(cp) else s.cathode)
  {
    if s.configured then Ok(s)
    else
      var params := if |xp| > 0 then Some(xp) else s.params;
      var cathode := if |cp| > 0 then Some(cp) else s.cathode;
      var lists :- BottomLists(params, cathode, (s.posyBot, s.poszBot));
      var params' :- DerivedParams(params, cathode);
      Ok(XaState(params', cathode, lists.0, lists.1, true))
  }

  /** Configuring twice is configuring once. */
  lemma ConfigureOnce(s: XaState, xp: map<string, real>, cp: map<string, real>, xp2: map<string, real>, cp2: map<string, real>)
    requires ConfigureState(s, xp, cp).Ok?
    ensures ConfigureState(ConfigureState(s, xp, cp).value, xp2, cp2) == ConfigureState(s, xp, cp)
  {
  }

  /** After configuring with both dictionaries the offset lists hold four
      entries each, the third and fourth mirroring the second and first. */
  lemma ConfiguredListsMirror(s: XaState, xp: map<string, real>, cp: map<string, real>)
    requires !s.configured && |xp| > 0 && |cp| > 0
    requires ConfigureState(s, xp, cp).Ok?
    ensures var t := ConfigureState(s, xp, cp).value;
            t.posyBot.Some? && t.poszBot.Some? && |t.posyBot.value| == 4 && |t.poszBot.value| == 4
            && t.posyBot.value[2] == -t.posyBot.value[1] && t.posyBot.value[3] == -t.posyBot.value[0]
            && t.poszBot.value[2] == -t.poszBot.value[1] && t.poszBot.value[3] == -t.poszBot.value[0]
  {
    var f := ReadFrame(Some(xp), Some(cp)).value;
    assert ConfigureState(s, xp, cp).value.posyBot == Some(BottomY(f));
    assert ConfigureState(s, xp, cp).value.poszBot == Some(BottomZ(f));
  }

  /** With both dictionaries, a positive rod spacing and non-negative void
      sizes, the stored bar counts are the whole spacings that fit. */
  lemma ConfiguredBarCounts(s: XaState, xp: map<string, real>, cp: map<string, real>)
    requires !s.configured && |xp| > 0 && |cp| > 0
    requires ConfigureState(s, xp, cp).Ok?
    requires RodSeparation in xp && xp[RodSeparation] > 0.0
    requires LengthVoid in cp && cp[LengthVoid] >= 0.0 && WidthVoid in cp && cp[WidthVoid] >= 0.0
    ensures var p := ConfigureState(s, xp, cp).value.params;
            var sep := xp[RodSeparation];
            p.Some? && BarsVertical in p.value && BarsHorizontal in p.value
            && Fits(p.value[BarsVertical], cp[LengthVoid], sep)
            && Fits(p.value[BarsHorizontal], cp[WidthVoid], sep)
  {
    ConfiguredParams(s, xp, cp);
    var d := Derive(xp, Some(cp)).value;
    DerivedBars(xp, cp);
    var sep := xp[RodSeparation];
    CountFits(d[BarsVertical], cp[LengthVoid], sep);
    CountFits(d[BarsHorizontal], cp[WidthVoid], sep);
    assert ConfigureState(s, xp, cp).value.params == Some(d);
  }

  /** The dictionary configure stores is the derived one. */
  lemma ConfiguredParams(s: XaState, xp: map<string, real>, cp: map<string, real>)
    requires !s.configured && ConfigureState(s, xp, cp).Ok?
    ensures var p := if |xp| > 0 then Some(xp) else s.params;
            var c := if |cp| > 0 then Some(cp) else s.cathode;
            DerivedParams(p, c).Ok? && ConfigureState(s, xp, cp).value.params == DerivedParams(p, c).value
  {
  }

  /** With a cathode dictionary the derived bar counts are the truncated
      quotients. */
  lemma DerivedBars(p: map<string, real>, c: map<string, real>)
    requires |c| > 0 && Derive(p, Some(c)).Ok?
    ensures var d := Derive(p, Some(c)).value;
            LengthVoid in c && WidthVoid in c && RodSeparation in p && p[RodSeparation] != 0.0
            && BarsVertical in d && d[BarsVertical] == Trunc(c[LengthVoid] / p[RodSeparation]) as real
            && BarsHorizontal in d && d[BarsHorizontal] == Trunc(c[WidthVoid] / p[RodSeparation]) as real
  {
    assert Present(Some(c));
  }

  /** `count` whole spacings `sep` fit in the length `a`, and one more does not. */
  predicate Fits(count: real, a: real, sep: real)
  {
    count * sep <= a < (count + 1.0) * sep
  }

  lemma CountFits(count: real, a: real, sep: real)
    requires a >= 0.0 && sep > 0.0 && count == Trunc(a / sep) as real
    ensures Fits(count, a, sep)
  {
    TruncCountsSpacings(a, sep);
  }

  /** The tile over a cathode module: tile i of module row `idx`, with
      the module centre (cx, cy, cz); tile 3 of row 1 takes the y of tile 2. */
  function CathodeTile(f: Frame, idx: int, i: nat, cx: real, cy: real, cz: real): Vec3
    requires i < 4
  {
    var y := if idx == 1 && i == 3 then -(-f.border - f.gap - 0.5 * f.outX) + cy
             else if i == 0 then -2.0 * f.widthVoid - 2.0 * f.border + f.gap + 0.5 * f.outX + cy
             else if i == 1 then -f.border - f.gap - 0.5 * f.outX + cy
             else if i == 2 then -(-f.border - f.gap - 0.5 * f.outX) + cy
             else -(-2.0 * f.widthVoid - 2.0 * f.border + f.gap + 0.5 * f.outX) + cy;
    var z := if i == 0 then 0.5 * f.lengthVoid + f.border + cz
             else if i == 1 then -1.5 * f.lengthVoid - 2.0 * f.border + cz
             else if i == 2 then -(-1.5 * f.lengthVoid - 2.0 * f.border) + cz
             else -(0.5 * f.lengthVoid + f.border) + cz;
    Vec3(cx, y, z)
  }

  /** The tiles over a module are the module centre shifted by the offsets
      configure stores, except that tile 3 of row 1 uses tile 2's y offset. */
  lemma CathodeTileUsesBottomLists(f: Frame, idx: int, i: nat, cx: real, cy: real, cz: real)
    requires i < 4
    ensures var t := CathodeTile(f, idx, i, cx, cy, cz);
            t.x == cx && t.z == cz + BottomZ(f)[i]
            && t.y == cy + BottomY(f)[if idx == 1 && i == 3 then 2 else i]
  {
  }

  /** Apart from that override the four tiles sit at distinct positions when
      the frame offsets are non-zero. */
  lemma CathodeTilesDistinct(f: Frame, idx: int, cx: real, cy: real, cz: real, i: nat, j: nat)
    requires i < 4 && j < 4 && i != j
    requires FirstZ(f) != 0.0 && SecondZ(f) != 0.0 && FirstZ(f) != SecondZ(f) && FirstZ(f) != -SecondZ(f)
    ensures CathodeTile(f, idx, i, cx, cy, cz) != CathodeTile(f, idx, j, cx, cy, cz)
  {
    CathodeTileUsesBottomLists(f, idx, i, cx, cy, cz);
    CathodeTileUsesBottomLists(f, idx, j, cx, cy, cz);
  }

  /** The lateral-wall quantities, in the order the source first uses them. */
  datatype Lateral = Lateral(outY: real, windowY: real, upper: real, vertical: real, lower: real,
                             widthCathode: real, frameToFC: real, fcToArapuca: real)

  function ReadLateral(p: Option<map<string, real>>, c: Option<map<string, real>>): (r: Result<Lateral>)
    ensures r.Ok? <==> (p.Some? && c.Some? && OutY in p.value && WindowY in p.value && UpperFirst in p.value
                        && VerticalDist in p.value && LowerFirst in p.value && WidthCathode in c.value
                        && FrameToFC in p.value && FCToArapuca in p.value)
    ensures r.Ok? ==> r.value == Lateral(p.value[OutY], p.value[WindowY], p.value[UpperFirst], p.value[VerticalDist],
                                         p.value[LowerFirst], c.value[WidthCathode], p.value[FrameToFC], p.value[FCToArapuca])
  {
    var outY :- Get(p, OutY);
    var windowY :- Get(p, WindowY);
    var upper :- Get(p, UpperFirst);
    var vertical :- Get(p, VerticalDist);
    var lower :- Get(p, LowerFirst);
    var wc :- Get(c, WidthCathode);
    var toFC :- Get(p, FrameToFC);
    var fcTo :- Get(p, FCToArapuca);
    Ok(Lateral(outY, windowY, upper, vertical, lower, wc, toFC, fcTo))
  }

  /** A lateral tile: its index, position, the y of its sensitive window and
      its rotation. */
  datatype LateralTile = LateralTile(index: nat, x: real, y: real, ySens: real, z: real, rot: string)

  /** The vertical position of lateral tile i, in closed form: the first and
      third tiles of each side are measured from the upper and lower anode,
      the second and fourth one tile pitch (plus 1 cm) further in. */
  function LateralX(l: Lateral, fx: real, i: nat): real
  {
    if i % 4 == 0 then fx + l.upper
    else if i % 4 == 1 then fx + l.upper - (l.vertical + 1.0)
    else if i % 4 == 2 then fx - l.lower
    else fx - l.lower + (l.vertical + 1.0)
  }

  /** The shift of the second wall's tiles across the detector. */
  function RightShift(l: Lateral): real
  {
    2.0 * l.widthCathode + 2.0 * (l.frameToFC + l.fcToArapuca - l.outY / 2.0)
  }

  /** Lateral tile i: tiles 0-3 on the first wall unrotated, tiles 4-7 on the
      opposite wall turned about x, each with its window offset toward the
      detector. */
  function LateralAt(l: Lateral, fx: real, fy: real, fz: real, i: nat): LateralTile
  {
    if i < 4 then
      LateralTile(i, LateralX(l, fx, i), fy, fy + 0.5 * l.outY - 0.5 * l.windowY - 0.01, fz, "rIdentity")
    else
      var y := fy + RightShift(l);
      LateralTile(i, LateralX(l, fx, i), y, y - 0.5 * l.outY + 0.5 * l.windowY + 0.01, fz, "rPlus180AboutX")
  }

  /** The two walls' windows are offset by equal and opposite amounts, and
      the x pattern repeats: the walls differ only in y, y_sens and rotation. */
  lemma LateralWallsMirror(l: Lateral, fx: real, fy: real, fz: real, i: nat)
    requires i < 4
    ensures var a := LateralAt(l, fx, fy, fz, i);
            var b := LateralAt(l, fx, fy, fz, i + 4);
            a.x == b.x && a.z == b.z && b.y == a.y + RightShift(l)
            && b.ySens - b.y == -(a.ySens - a.y) && a.rot != b.rot
  {
    assert (i + 4) % 4 == i % 4;
  }

  /** The x of tiles 1, 3, 5 and 7 is the previous tile's x moved down and
      up by one tile pitch plus 1 cm. */
  lemma LateralXSteps(l: Lateral, fx: real, i: nat)
    requires i < 8 && i % 2 == 1
    ensures LateralX(l, fx, i) == LateralX(l, fx, i - 1) + (if i % 4 == 1 then -(l.vertical + 1.0) else l.vertical + 1.0)
  {
  }

  /** The appends configure makes to `list_posx_bot` and `list_posz_bot`. */
  method AppendBottomLists(f: Frame) returns (yl: seq<real>, zl: seq<real>)
    ensures yl == BottomY(f) && zl == BottomZ(f)
  {
    yl := [FirstY(f)];
    zl := [FirstZ(f)];
    yl := yl + [SecondY(f)];
    zl := zl + [SecondZ(f)];
    yl := yl + [-yl[1]];
    zl := zl + [-zl[1]];
    yl := yl + [-yl[0]];
    zl := zl + [-zl[0]];
  }

  /** configure, unconfigured, as its stages: the offset lists, then the
      derived entries, the first failure ending it. */
  lemma ConfigureSteps(s: XaState, xp: map<string, real>, cp: map<string, real>)
    requires !s.configured
    ensures var p := if |xp| > 0 then Some(xp) else s.params;
            var c := if |cp| > 0 then Some(cp) else s.cathode;
            var lists := BottomLists(p, c, (s.posyBot, s.poszBot));
            var dp := DerivedParams(p, c);
            ConfigureState(s, xp, cp)
              == if lists.Err? then Err(lists.failure)
                 else if dp.Err? then Err(dp.failure)
                 else Ok(XaState(dp.value, c, lists.value.0, lists.value.1, true))
  {
  }

  /** The offset lists configure stores, appended one by one. */
  method ListsStage(p: Option<map<string, real>>, c: Option<map<string, real>>,
                    held: (Option<seq<real>>, Option<seq<real>>)) returns (r: Result<(Option<seq<real>>, Option<seq<real>>)>)
    ensures r == BottomLists(p, c, held)
  {
    if Present(p) && Present(c) {
      var fr := ReadFrame(p, c);
      if fr.Err? {
        return Err(fr.failure);
      }
      var yl, zl := AppendBottomLists(fr.value);
      return Ok((Some(yl), Some(zl)));
    }
    return Ok(held);
  }

  class XArapucaBuilder {
    var params: Option<map<string, real>>
    var cathode: Option<map<string, real>>
    var posyBot: Option<seq<real>>
    var poszBot: Option<seq<real>>
    var configured: bool

    function State(): XaState
      reads this
    {
      XaState(params, cathode, posyBot, poszBot, configured)
    }

    constructor ()
      ensures State() == XaState(None, None, None, None, false)
    {
      params, cathode, posyBot, poszBot, configured := None, None, None, None, false;
    }

    /** configure; on a failure the builder is left as it was. */
    method Configure(xp: map<string, real>, cp: map<string, real>) returns (r: Result<()>)
      modifies this
      ensures r.Ok? <==> ConfigureState(old(State()), xp, cp).Ok?
      ensures r.Ok? ==> State() == ConfigureState(old(State()), xp, cp).value
      ensures r.Err? ==> r.failure == ConfigureState(old(State()), xp, cp).failure && State() == old(State())
    {
      var s := State();
      if configured {
        return Ok(());
      }
      ConfigureSteps(s, xp, cp);
      var p := if |xp| > 0 then Some(xp) else params;
      var c := if |cp| > 0 then Some(cp) else cathode;
      var lists := ListsStage(p, c, (posyBot, poszBot));
      if lists.Err? {
        return Err(lists.failure);
      }
      var (ys, zs) := lists.value;
      var dp := DerivedParams(p, c);
      if dp.Err? {
        return Err(dp.failure);
      }
      params, cathode, posyBot, poszBot, configured := dp.value, c, ys, zs, true;
      return Ok(());
    }

    /** calculate_cathode_positions: the four tiles over the module centred at
        (cx, cy, cz) in module row `idx`. */
    method CathodePositions(idx: int, cx: real, cy: real, cz: real) returns (r: Result<seq<Vec3>>)
      ensures r.Err? <==> ReadFrame(params, cathode).Err?
      ensures r.Err? ==> r.failure == ReadFrame(params, cathode).failure
      ensures r.Ok? ==> |r.value| == 4
      ensures r.Ok? ==> forall i :: 0 <= i < 4 ==> r.value[i] == CathodeTile(ReadFrame(params, cathode).value, idx, i, cx, cy, cz)
    {
      var fr := ReadFrame(params, cathode);
      if fr.Err? {
        return Err(fr.failure);
      }
      var positions: seq<Vec3> := [];
      for i := 0 to 4
        invariant |positions| == i
        invariant forall k :: 0 <= k < i ==> positions[k] == CathodeTile(fr.value, idx, k, cx, cy, cz)
      {
        positions := positions + [CathodeTile(fr.value, idx, i, cx, cy, cz)];
      }
      return Ok(positions);
    }

    /** calculate_lateral_positions: eight tiles, the x carried from one tile
        to the next as the source does. */
    method LateralPositions(fx: real, fy: real, fz: real) returns (r: Result<seq<LateralTile>>)
      ensures r.Err? <==> ReadLateral(params, cathode).Err?
      ensures r.Err? ==> r.failure == ReadLateral(params, cathode).failure
      ensures r.Ok? ==> |r.value| == 8
      ensures r.Ok? ==> forall i :: 0 <= i < 8 ==> r.value[i] == LateralAt(ReadLateral(params, cathode).value, fx, fy, fz, i)
    {
      var lr := ReadLateral(params, cathode);
      if lr.Err? {
        return Err(lr.failure);
      }
      var l := lr.value;
      var positions: seq<LateralTile> := [];
      var x := fx;
      for i := 0 to 8
        invariant |positions| == i
        invariant i > 0 ==> x == LateralX(l, fx, i - 1)
        invariant forall k :: 0 <= k < i ==> positions[k] == LateralAt(l, fx, fy, fz, k)
      {
        var y := fy;
        var ySens: real;
        var rot: string;
        if i < 4 {
          ySens := y + 0.5 * l.outY - 0.5 * l.windowY - 0.01;
          rot := "rIdentity";
        } else {
          y := y + 2.0 * l.widthCathode + 2.0 * (l.frameToFC + l.fcToArapuca - l.outY / 2.0);
          ySens := y - 0.5 * l.outY + 0.5 * l.windowY + 0.01;
          rot := "rPlus180AboutX";
        }
        if i == 0 || i == 4 {
          x := fx + l.upper;
        } else if i == 1 || i == 5 {
          x := x - (l.vertical + 1.0);
        } else if i == 2 || i == 6 {
          x := fx - l.lower;
        } else {
          x := x + (l.vertical + 1.0);
        }
        positions := positions + [LateralTile(i, x, y, ySens, fz, rot)];
      }
      return Ok(positions);
    }
  }
}
