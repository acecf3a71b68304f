/** The FD-VD field shaper (dunefdvd/FieldCage.py): a closed ring of tubes
    and quarter tori built as a chain of seven boolean unions on a long
    tube, once with the thick tubes and once with the slim ones. */
module FdFieldCage {
  import opened Wrappers
  import opened Strings
  import opened Placements
  import opened Shapes
  import opened ParamStore

  /** The parameters `construct` reads (cm). `window` is the X-ARAPUCA
      window length, read only when nCRM_y is 8. */
  datatype ShaperDims = ShaperDims(inner: real, outer: real, outerSlim: real, torRad: real,
                                   longLength: real, shortLength: real, window: Option<real>)

  /** The reads in the order `construct` first makes them; every `get`
      exits on a missing key. */
  function ReadDims(st: Store): Result<ShaperDims>
  {
    var inner :- LookupNum(st, FieldShaperInnerRadius);
    var outer :- LookupNum(st, FieldShaperOuterRadius);
    var torRad :- LookupNum(st, FieldShaperTorRad);
    var longLength :- LookupNum(st, FieldShaperLongTubeLength);
    var shortLength :- LookupNum(st, FieldShaperShortTubeLength);
    var outerSlim :- LookupNum(st, FieldShaperOuterRadiusSlim);
    var ny :- Lookup(st, nCRM_y);
    if !EqualsNum(ny, 8.0) then Ok(ShaperDims(inner, outer, outerSlim, torRad, longLength, shortLength, None))
    else
      var window :- LookupNum(st, FieldCageArapucaWindowLength);
      Ok(ShaperDims(inner, outer, outerSlim, torRad, longLength, shortLength, Some(window)))
  }

  function Corner(d: ShaperDims): Shape
  {
    Torus("FieldShaperCorner", d.inner, d.outer, d.torRad)
  }

  function LongTube(d: ShaperDims): Shape
  {
    Tubs("FieldShaperLongtube", d.inner, d.outer, 0.5 * d.longLength)
  }

  function ShortTube(d: ShaperDims): Shape
  {
    Tubs("FieldShaperShorttube", d.inner, d.outer, 0.5 * d.shortLength)
  }

  function LongTubeSlim(d: ShaperDims): Shape
  {
    Tubs("FieldShaperLongtubeSlim", d.inner, d.outerSlim, 0.5 * d.longLength)
  }

  /** The thick piece at each end of the window in the slim short tube. */
  function WindowEnd(d: ShaperDims, w: real): Shape
  {
    Tubs("FieldShaperShorttubeWindowNotSlim", d.inner, d.outer, 0.25 * (d.shortLength - w))
  }

  /** constructShortTubeSlim: a plain slim tube, or, with a window, a slim
      tube of the window's length with a thick piece united at each end. */
  function ShortTubeSlim(d: ShaperDims): Shape
  {
    match d.window
    case None => Tubs("FieldShaperShorttubeSlim", d.inner, d.outerSlim, 0.5 * d.shortLength)
    case Some(w) =>
      var windowSlim := Tubs("FieldShaperShorttubeWindowSlim", d.inner, d.outerSlim, 0.5 * w);
      var union1 := Boolean("FSunionWindow1", Union, windowSlim, WindowEnd(d, w), "posFieldShaperShortTube_shift1",
                            Vec3(0.0, 0.0, 0.25 * (w + d.shortLength)), NoRot);
      Boolean("FieldShaperShorttubeSlim", Union, union1, WindowEnd(d, w), "posFieldShaperShortTube_shift2",
              Vec3(0.0, 0.0, -0.25 * (w + d.shortLength)), NoRot)
  }

  /** The (x, z) of the piece united at step ui = 1 .. 7. */
  function XzPositions(d: ShaperDims): seq<(real, real)>
  {
    var t, s, l := d.torRad, d.shortLength, d.longLength;
    [(-t, 0.5 * l),
     (-t - 0.5 * s, 0.5 * l + t),
     (-t - s, 0.5 * l),
     (-s - 2.0 * t, 0.0),
     (-t - s, -0.5 * l),
     (-t - 0.5 * s, -0.5 * l - t),
     (-t, -0.5 * l)]
  }

  const Rotations: seq<string> :=
    ["rPlus90AboutX", "rPlus90AboutY", "rPlus90AboutXMinux90AboutY", "rIdentity",
     "rPlus90AboutXPlus180AboutY", "rPlus90AboutY", "rPlus90AboutXPlus90AboutY"]

  /** The piece united at step ui: a short tube when ui is even but not a
      multiple of 4, a long tube when it is a multiple of 4, a corner
      otherwise. */
  function Piece(d: ShaperDims, slim: bool, ui: nat): Shape
  {
    if ui % 2 == 0 && ui % 4 != 0 then (if slim then ShortTubeSlim(d) else ShortTube(d))
    else if ui % 2 == 0 then (if slim then LongTubeSlim(d) else LongTube(d))
    else Corner(d)
  }

  /** The name of the union made at step ui. */
  function UnionName(slim: bool, ui: nat): string
  {
    if ui == 7 then (if slim then "FieldShaperSolidSlim" else "FieldShaperSolid")
    else (if slim then "FSunionSlim" else "FSunion") + NatToString(ui)
  }

  /** The name of the position used at step ui, following the numbering of
      the original Perl generator for the slim chain. */
  function PositionName(slim: bool, ui: nat): string
  {
    if !slim then "esquinapos" + NatToString(ui)
    else if ui == 4 then "esquinapos4Slim"
    else if ui < 4 then "esquinapos" + NatToString(ui + 7)
    else "esquinapos" + NatToString(ui + 6)
  }

  /** The union chain after n steps. */
  function Chain(d: ShaperDims, slim: bool, n: nat): Shape
    requires n <= 7
  {
    if n == 0 then (if slim then LongTubeSlim(d) else LongTube(d))
    else
      Boolean(UnionName(slim, n), Union, Chain(d, slim, n - 1), Piece(d, slim, n), PositionName(slim, n),
              Vec3(XzPositions(d)[n - 1].0, 0.0, XzPositions(d)[n - 1].1), Rotations[n - 1])
  }

  /** The two volumes `construct` adds. */
  function ShaperVolumes(d: ShaperDims): seq<Volume>
  {
    [Volume("volFieldShaper", "ALUMINIUM_Al", Chain(d, false, 7), []),
     Volume("volFieldShaperSlim", "ALUMINIUM_Al", Chain(d, true, 7), [])]
  }

  /** `construct` after SetDerived. */
  function Construct(st: Store): Result<seq<Volume>>
  {
    var d :- ReadDims(st);
    Ok(ShaperVolumes(d))
  }

  // ---------------------------------------------------------------------------
  // Properties

  /** The number of unions in a chain. */
  const Steps: nat := 7

  /** The pieces are, in order, corner, short tube, corner, long tube,
      corner, short tube, corner, on a long tube; the last union is named
      FieldShaperSolid (FieldShaperSolidSlim). */
  lemma UnionSequence(d: ShaperDims, slim: bool, k: nat)
    requires k < Steps
    ensures var s := Chain(d, slim, Steps);
            var short, long := if slim then ShortTubeSlim(d) else ShortTube(d), if slim then LongTubeSlim(d) else LongTube(d);
            |Layers(s)| == Steps && Base(s) == long
            && Layers(s)[k].Boolean? && Layers(s)[k].op == Union
            && Layers(s)[k].second == [Corner(d), short, Corner(d), long, Corner(d), short, Corner(d)][k]
            && s.name == (if slim then "FieldShaperSolidSlim" else "FieldShaperSolid")
  {
    ChainLayers(d, slim, Steps, k);
    PieceTable(d, slim, k);
  }

  /** The piece of step k + 1, read off the table. */
  lemma PieceTable(d: ShaperDims, slim: bool, k: nat)
    requires k < 7
    ensures var short, long := if slim then ShortTubeSlim(d) else ShortTube(d), if slim then LongTubeSlim(d) else LongTube(d);
            Piece(d, slim, k + 1) == [Corner(d), short, Corner(d), long, Corner(d), short, Corner(d)][k]
  {
  }

  /** The layers of a chain are its prefixes: layer k is the chain after
      k + 1 steps. */
  lemma {:induction false} ChainLayers(d: ShaperDims, slim: bool, n: nat, k: nat)
    requires k < n <= 7
    ensures |Layers(Chain(d, slim, n))| == n
    ensures Base(Chain(d, slim, n)) == (if slim then LongTubeSlim(d) else LongTube(d))
    ensures Layers(Chain(d, slim, n))[k] == Chain(d, slim, k + 1)
  {
    var c := Chain(d, slim, n);
    assert c.Boolean? && c.first == Chain(d, slim, n - 1);
    OnTop(c);
    if n == 1 {
      assert !Chain(d, slim, 0).Boolean?;
    } else if k < n - 1 {
      ChainLayers(d, slim, n - 1, k);
    } else {
      ChainLayers(d, slim, n - 1, 0);
    }
  }

  /** Different steps, of the same chain or not, use different position
      names, so no slim position name is also a thick one. */
  lemma PositionNamesDistinct(slimA: bool, a: nat, slimB: bool, b: nat)
    requires 1 <= a <= 7 && 1 <= b <= 7 && (slimA, a) != (slimB, b)
    ensures PositionName(slimA, a) != PositionName(slimB, b)
  {
    if slimA && a == 4 {
      NumberedNotFourSlim(PositionNumber(slimB, b));
    } else if slimB && b == 4 {
      NumberedNotFourSlim(PositionNumber(slimA, a));
    } else {
      assert PositionName(slimA, a) == "esquinapos" + NatToString(PositionNumber(slimA, a));
      assert PositionName(slimB, b) == "esquinapos" + NatToString(PositionNumber(slimB, b));
      NumberedDistinct("esquinapos", PositionNumber(slimA, a), PositionNumber(slimB, b));
    }
  }

  /** Different steps, of the same chain or not, make differently named
      unions. */
  lemma UnionNamesDistinct(slimA: bool, a: nat, slimB: bool, b: nat)
    requires 1 <= a <= 7 && 1 <= b <= 7 && (slimA, a) != (slimB, b)
    ensures UnionName(slimA, a) != UnionName(slimB, b)
  {
    if a == 7 && b == 7 {
    } else if a == 7 || b == 7 {
      assert UnionName(slimA, a)[1] != UnionName(slimB, b)[1];
    } else if slimA == slimB {
      NumberedDistinct(if slimA then "FSunionSlim" else "FSunion", a, b);
    } else {
      SlimPrefix(a, b, slimA);
    }
  }

  /** The number a position name ends in (none for esquinapos4Slim): 1 .. 7
      for the thick chain, 8 .. 13 for the slim one. */
  function PositionNumber(slim: bool, ui: nat): nat
  {
    if !slim then ui else if ui < 4 then ui + 7 else ui + 6
  }

  lemma NumberedDistinct(pre: string, a: nat, b: nat)
    requires a != b
    ensures pre + NatToString(a) != pre + NatToString(b)
  {
    if pre + NatToString(a) == pre + NatToString(b) {
      PrefixedInjective(pre, a, b);
      assert false;
    }
  }

  lemma NumberedNotFourSlim(k: nat)
    ensures "esquinapos" + NatToString(k) != "esquinapos4Slim"
  {
    var x := NatToString(k);
    NatToStringDigits(k);
    if |x| == 5 {
      assert ("esquinapos" + x)[11] == x[1];
      assert IsDigit(x[1]);
      assert "esquinapos4Slim"[11] == 'S';
    }
  }

  lemma SlimPrefix(a: nat, b: nat, slimA: bool)
    requires 1 <= a < 7 && 1 <= b < 7
    ensures (if slimA then "FSunionSlim" else "FSunion") + NatToString(a)
            != (if slimA then "FSunion" else "FSunionSlim") + NatToString(b)
  {
    NatToStringDigits(a);
    NatToStringDigits(b);
    var x, y := NatToString(a), NatToString(b);
    if slimA {
      assert ("FSunionSlim" + x)[7] == 'S';
      assert ("FSunion" + y)[7] == y[0] && IsDigit(y[0]);
    } else {
      assert ("FSunion" + x)[7] == x[0] && IsDigit(x[0]);
      assert ("FSunionSlim" + y)[7] == 'S';
    }
  }

  /** The ring closes: each short tube spans exactly from one corner to the
      next along x, the long tube opposite the base spans from corner 3 to
      corner 5 along z, and the ring is mirror-symmetric in z. */
  lemma RingCloses(d: ShaperDims)
    ensures var p := XzPositions(d);
            |p| == 7
            && p[1].0 + ShortTube(d).dz == p[0].0 && p[1].0 - ShortTube(d).dz == p[2].0
            && p[5].0 + ShortTube(d).dz == p[6].0 && p[5].0 - ShortTube(d).dz == p[4].0
            && p[3].1 + LongTube(d).dz == p[2].1 && p[3].1 - LongTube(d).dz == p[4].1
            && p[0].1 == LongTube(d).dz && p[6].1 == -LongTube(d).dz
            && (forall i :: 0 <= i < 7 ==> p[6 - i].0 == p[i].0 && p[6 - i].1 == -p[i].1)
  {
  }

  /** With a window, the slim short tube is the window tube with a thick
      piece at each end whose inner face meets the window and whose outer
      face is where the plain short tube ends; the three together are as
      long as the short tube. */
  lemma WindowedShortTube(d: ShaperDims)
    requires d.window.Some?
    ensures var s := ShortTubeSlim(d);
            s.Boolean? && s.first.Boolean?
            && var windowSlim, piece, shift := s.first.first, s.second, s.first.pos.z;
            windowSlim.Tubs? && piece.Tubs? && piece == s.first.second
            && s.pos.z == -shift
            && shift - piece.dz == windowSlim.dz
            && shift + piece.dz == ShortTube(d).dz
            && 2.0 * windowSlim.dz + 4.0 * piece.dz == d.shortLength
            && windowSlim.rmax == d.outerSlim && piece.rmax == d.outer
  {
  }

  /** Without a window the slim short tube is one slim tube as long as the
      short tube. */
  lemma PlainShortTube(d: ShaperDims)
    requires d.window.None?
    ensures ShortTubeSlim(d).Tubs? && ShortTubeSlim(d).dz == ShortTube(d).dz && ShortTubeSlim(d).rmax == d.outerSlim
  {
  }

  /** The window is read exactly when nCRM_y is 8. */
  lemma WindowReadAtEightRows(st: Store)
    requires ReadDims(st).Ok?
    ensures nCRM_y in st.params
    ensures ReadDims(st).value.window.Some? <==> EqualsNum(st.params[nCRM_y], 8.0)
  {
  }

  /** `configure`: only keywords of the FieldCage section, which they replace. */
  function Configure(st: Store, kwds: map<Key, Value>): (r: Result<Store>)
    ensures r.Err? <==> !(kwds.Keys <= st.sections.fieldcage.Keys)
    ensures r.Ok? ==> r.value.sections.fieldcage.Keys == st.sections.fieldcage.Keys &&
                      forall k :: k in kwds ==> r.value.sections.fieldcage[k] == kwds[k]
  {
    var r := ConfigureState(st, FieldCage, kwds);
    if r.Ok? then ConfigureKeepsKeys(st, FieldCage, kwds); r else r
  }

  // ---------------------------------------------------------------------------
  // The builder

  /** The union loop of `construct`: ui = 1 .. 7, each step uniting the
      running thick and slim solids with the step's piece. */
  method UnionShapes(d: ShaperDims) returns (union: Shape, unionSlim: Shape)
    ensures union == Chain(d, false, 7) && unionSlim == Chain(d, true, 7)
  {
    var xz := XzPositions(d);
    union, unionSlim := LongTube(d), LongTubeSlim(d);
    for ui := 1 to 8
      invariant union == Chain(d, false, ui - 1) && unionSlim == Chain(d, true, ui - 1)
    {
      var second, secondSlim := Corner(d), Corner(d);
      if ui % 2 == 0 && ui % 4 != 0 {
        second, secondSlim := ShortTube(d), ShortTubeSlim(d);
      } else if ui % 2 == 0 {
        second, secondSlim := LongTube(d), LongTubeSlim(d);
      }
      var fsName, fsSlimName := "FSunion" + NatToString(ui), "FSunionSlim" + NatToString(ui);
      if ui == 7 {
        fsName, fsSlimName := "FieldShaperSolid", "FieldShaperSolidSlim";
      }
      var posName := "esquinapos" + NatToString(ui);
      var posSlimName := if ui < 4 then "esquinapos" + NatToString(ui + 7) else "esquinapos" + NatToString(ui + 6);
      if ui == 4 {
        posSlimName := "esquinapos4Slim";
      }
      var pos := Vec3(xz[ui - 1].0, 0.0, xz[ui - 1].1);
      union := Boolean(fsName, Union, union, second, posName, pos, Rotations[ui - 1]);
      unionSlim := Boolean(fsSlimName, Union, unionSlim, secondSlim, posSlimName, pos, Rotations[ui - 1]);
    }
  }

  /** The builder's `construct` on the global store: SetDerived (nothing
      else happens if it fails), the reads, then the two volumes. */
  method Build(p: Params) returns (r: Result<seq<Volume>>)
    modifies p
    ensures SetDerivedState(old(p.State())).Err? ==>
              r == Err(SetDerivedState(old(p.State())).failure) && p.State() == old(p.State())
    ensures SetDerivedState(old(p.State())).Ok? ==>
              p.State() == SetDerivedState(old(p.State())).value && r == Construct(p.State())
  {
    var derived := p.SetDerived();
    if derived.Err? {
      return Err(derived.failure);
    }
    var d := ReadDims(p.State());
    if d.Err? {
      return Err(d.failure);
    }
    var union, unionSlim := UnionShapes(d.value);
    r := Ok([Volume("volFieldShaper", "ALUMINIUM_Al", union, []),
             Volume("volFieldShaperSlim", "ALUMINIUM_Al", unionSlim, [])]);
  }
}
