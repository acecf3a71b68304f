/** The horizontal-drift cryostat builder of Develop-Area/Cryostat.py: its
    configuration checks, the outer dimensions, the loop that numbers and
    places the APA modules (two TPCs and a frame each) and the cathode planes
    (CPAs) between them, the positions of the external beams and the volumes
    of the beam shapes it writes for larfd/CalculateBeamVolume.py. */
module ApaCryostat {
  import opened Wrappers
  import opened Strings
  import opened Placements
  import BeamVolume

  // ---------------------------------------------------------------------------
  // configure

  /** configure: a missing nAPAs raises ValueError, more than two rows of APAs
      fail the assertion (they can only be read out from the top or the
      bottom); a list too short to have a second entry raises IndexError. */
  function ConfigureCheck(nAPAs: Option<seq<int>>): (r: Result<seq<int>>)
    ensures nAPAs.None? ==> r == Err(ValueError("No value given for nAPAs"))
    ensures nAPAs.Some? && |nAPAs.value| < 2 ==> r == Err(IndexError)
    ensures nAPAs.Some? && |nAPAs.value| >= 2 ==> (r.Ok? <==> nAPAs.value[1] <= 2)
    ensures r.Ok? ==> r.value == nAPAs.value && r.value[1] <= 2
    ensures r.Err? && nAPAs.Some? && |nAPAs.value| >= 2 ==> r == Err(AssertionError)
  {
    match nAPAs
    case None => Err(ValueError("No value given for nAPAs"))
    case Some(n) =>
      if |n| < 2 then Err(IndexError)
      else if n[1] <= 2 then Ok(n)
      else Err(AssertionError)
  }

  /** The module counts construct reads from nAPAs (x, y, z). */
  function Counts(nAPAs: seq<int>): (r: Result<(int, int, int)>)
    ensures r.Ok? <==> |nAPAs| >= 3
    ensures r.Ok? ==> r.value == (nAPAs[0], nAPAs[1], nAPAs[2])
  {
    if |nAPAs| < 3 then Err(IndexError) else Ok((nAPAs[0], nAPAs[1], nAPAs[2]))
  }

  /** The cryostat thicknesses around the liquid argon (cm). */
  datatype Layers = Layers(layer1: real, layer2: real, layer3: real, steel: real, ipeBeamHeight: real)

  /** The cold insulation and the warm cryostat around it. */
  function TotalCryoLayer(l: Layers): real
  {
    (l.layer1 + l.layer2 + l.layer3) + (l.steel + l.ipeBeamHeight)
  }

  /** CryostatOuterDim: every inner dimension grows by twice the total layer. */
  function OuterDim(inner: Vec3, l: Layers): (o: Vec3)
    ensures o.x - inner.x == o.y - inner.y == o.z - inner.z == 2.0 * TotalCryoLayer(l)
  {
    Vec3(inner.x + 2.0 * TotalCryoLayer(l), inner.y + 2.0 * TotalCryoLayer(l), inner.z + 2.0 * TotalCryoLayer(l))
  }

  /** BeamInnerDim of ConstructAllBeam: the inner size plus the insulation and
      the steel skin on both sides. */
  function BeamInnerDim(inner: Vec3, l: Layers): (b: Vec3)
    ensures b.x - inner.x == b.y - inner.y == b.z - inner.z == 2.0 * (l.layer1 + l.layer2 + l.layer3 + l.steel)
  {
    var t := 2.0 * ((l.layer1 + l.layer2 + l.layer3) + l.steel);
    Vec3(inner.x + t, inner.y + t, inner.z + t)
  }

  // ---------------------------------------------------------------------------
  // IsIgnoredAPAs

  /** One entry of IgnoredAPAs, a Python range(start, stop). */
  datatype Range = Range(start: int, stop: int)

  predicate InRange(r: Range, a: int)
  {
    r.start <= a < r.stop
  }

  /** The loop over the ranges, returning at the first one that holds `a`. */
  function IgnoredIn(rs: seq<Range>, a: int): (b: bool)
    ensures b <==> exists i :: 0 <= i < |rs| && InRange(rs[i], a)
  {
    if rs == [] then false
    else if InRange(rs[0], a) then true
    else
      var b := IgnoredIn(rs[1..], a);
      assert forall i :: 1 <= i < |rs| ==> rs[i] == rs[1..][i - 1];
      b
  }

  /** IsIgnoredAPAs: iterating the default None raises TypeError. */
  function IsIgnoredAPAs(ignored: Option<seq<Range>>, a: int): (r: Result<bool>)
    ensures r.Err? <==> ignored.None?
    ensures r.Ok? ==> (r.value <==> exists i :: 0 <= i < |ignored.value| && InRange(ignored.value[i], a))
  {
    match ignored
    case None => Err(TypeError("'NoneType' object is not iterable"))
    case Some(rs) => Ok(IgnoredIn(rs, a))
  }

  // ---------------------------------------------------------------------------
  // The APA and CPA placement loop of construct

  /** What the loop reads: dimensions (cm) from the TPC and APA-frame builders
      and the configuration, the module counts and the ignored APAs. */
  datatype Layout = Layout(inner: Vec3, tpcDim: Vec3, tpcOuterDim: Vec3, frameDim: Vec3, cathode: real,
                           gapY: real, gapZ: real, apaToFloor: real, apaToUpstreamWall: real,
                           outerAPAs: bool, n0: int, n1: int, n2: int, ignored: Option<seq<Range>>)

  /** APAToAPA[0]: the pitch of the modules along x. */
  function ApaPitchX(c: Layout): real
  {
    c.frameDim.x + 2.0 * c.tpcDim.x + c.cathode
  }

  /** The centre of module (x, y, z) (xpos, ypos, zpos). */
  function Centre(c: Layout, x: int, y: int, z: int): Vec3
  {
    Vec3(0.0 - ((c.n0 - 1) as real / 2.0) * ApaPitchX(c) + (x as real) * ApaPitchX(c),
         -0.5 * c.inner.y + c.apaToFloor + 0.5 * c.tpcDim.y + (y as real) * (c.tpcDim.y + c.gapY),
         -0.5 * c.inner.z + c.apaToUpstreamWall + 0.5 * c.tpcDim.z + (z as real) * (c.tpcDim.z + c.gapZ))
  }

  /** The first and the last module of a row face the walls when outer APAs are configured. */
  predicate OuterNeg(c: Layout, x: int)
  {
    x == 0 && c.outerAPAs
  }

  predicate OuterPos(c: Layout, x: int)
  {
    x == c.n0 - 1 && c.outerAPAs
  }

  function Tpc0X(c: Layout, x: int, y: int, z: int): real
  {
    Centre(c, x, y, z).x - 0.5 * c.frameDim.x - 0.5 * (if OuterNeg(c, x) then c.tpcOuterDim.x else c.tpcDim.x)
  }

  function Tpc1X(c: Layout, x: int, y: int, z: int): real
  {
    Centre(c, x, y, z).x + 0.5 * c.frameDim.x + 0.5 * (if OuterPos(c, x) then c.tpcOuterDim.x else c.tpcDim.x)
  }

  /** Where the cathodes on the two sides of module (x, y, z) go. */
  function Cpa0Pos(c: Layout, x: int, y: int, z: int): Vec3
  {
    Vec3(Tpc0X(c, x, y, z) - 0.5 * c.tpcDim.x - 0.5 * c.cathode, Centre(c, x, y, z).y, Centre(c, x, y, z).z)
  }

  function Cpa1Pos(c: Layout, x: int, y: int, z: int): Vec3
  {
    Vec3(Tpc1X(c, x, y, z) + 0.5 * c.tpcDim.x + 0.5 * c.cathode, Centre(c, x, y, z).y, Centre(c, x, y, z).z)
  }

  /** Placement names, numbered like the TPCs of LArSoft. */
  function TpcName(k: nat): string
  {
    "placeTPC-" + NatToString(k) + "_in_Cryo"
  }

  function FrameName(k: nat): string
  {
    "placeFrame-" + NatToString(k) + "_in_Cryo"
  }

  function CpaName(k: nat): string
  {
    "placeCPA-" + NatToString(k) + "_in_Cryo"
  }

  /** The top row is read out from above with no rotation about x; every other
      row is turned 180 degrees about x. */
  function Rot0(c: Layout, y: int): string
  {
    if y == c.n1 - 1 then "identity" else "r180aboutX"
  }

  function Rot1(c: Layout, y: int): string
  {
    if y == c.n1 - 1 then "r180aboutY" else "r180aboutX_180aboutY"
  }

  /** The two TPCs and the frame of module (x, y, z), whose APA number is `a`. */
  function ModulePlacements(c: Layout, a: nat, x: int, y: int, z: int): seq<Placement>
  {
    var ctr := Centre(c, x, y, z);
    [Placement(TpcName(2 * a), if OuterNeg(c, x) then "volTPCOuter" else "volTPC",
               Vec3(Tpc0X(c, x, y, z), ctr.y, ctr.z), Rot0(c, y)),
     Placement(TpcName(2 * a + 1), if OuterPos(c, x) then "volTPCOuter" else "volTPC",
               Vec3(Tpc1X(c, x, y, z), ctr.y, ctr.z), Rot1(c, y)),
     Placement(FrameName(2 * a), "volAPAFrame", ctr, Rot0(c, y))]
  }

  function CpaPlacement(k: nat, p: Vec3): Placement
  {
    Placement(CpaName(k), "volCathode", p, NoRot)
  }

  /** The loop's variables: APANum, CPANum, the keys of cpalist in insertion
      order, and the cryostat's placements. */
  datatype Loop = Loop(apaNum: nat, cpaNum: nat, cpalist: seq<Vec3>, placed: seq<Placement>)

  const Start := Loop(0, 0, [], [])

  /** One side's cathode: placed only when its position is a new key of
      cpalist; CPANum advances either way. */
  function PlaceCpa(s: Loop, p: Vec3): Loop
  {
    if p in s.cpalist then s.(cpaNum := s.cpaNum + 1)
    else s.(cpaNum := s.cpaNum + 1, cpalist := s.cpalist + [p], placed := s.placed + [CpaPlacement(s.cpaNum, p)])
  }

  /** One pass of the innermost loop body. */
  function ApaStep(c: Layout, s: Loop, x: int, y: int, z: int): Result<Loop>
  {
    var ignored :- IsIgnoredAPAs(c.ignored, s.apaNum);
    if ignored then Ok(s.(apaNum := s.apaNum + 1))
    else if c.n0 % 2 != 1 then Err(UnboundLocalError("xpos"))
    else if !c.outerAPAs then Err(UnboundLocalError("APAFrame_lv"))
    else Ok(Admit(c, s, x, y, z))
  }

  /** What a placed module adds: its TPCs and frame, and the cathode
      position on each side with whether that side gets one. */
  datatype Module = Module(parts: seq<Placement>, first: bool, p0: Vec3, second: bool, p1: Vec3)

  /** Module (x, y, z) with APA number `a`: a cathode on each side that does
      not face a wall. */
  function ModuleAt(c: Layout, a: nat, x: int, y: int, z: int): Module
  {
    Module(ModulePlacements(c, a, x, y, z), !OuterNeg(c, x), Cpa0Pos(c, x, y, z), !OuterPos(c, x), Cpa1Pos(c, x, y, z))
  }

  /** The loop state after module `m` is placed. */
  function Enter(s: Loop, m: Module): Loop
  {
    Sides(s.(apaNum := s.apaNum + 1, placed := s.placed + m.parts), m.first, m.p0, m.second, m.p1)
  }

  /** A module that is placed. */
  function Admit(c: Layout, s: Loop, x: int, y: int, z: int): Loop
  {
    Enter(s, ModuleAt(c, s.apaNum, x, y, z))
  }

  /** The cathode on the first side (when `first`), then on the second. */
  function Sides(s: Loop, first: bool, p0: Vec3, second: bool, p1: Vec3): Loop
  {
    var s1 := if first then PlaceCpa(s, p0) else s;
    if second then PlaceCpa(s1, p1) else s1
  }

  /** A loop body: the state before module (x, y, z) to the state after it. */
  type LoopBody = (Loop, int, int, int) -> Result<Loop>

  /** Modules x, x+1, ... of row y in layer z. */
  function RowFrom(body: LoopBody, n0: int, s: Loop, x: int, y: int, z: int): Result<Loop>
    decreases n0 - x
  {
    if x >= n0 then Ok(s)
    else
      var s' :- body(s, x, y, z);
      RowFrom(body, n0, s', x + 1, y, z)
  }

  /** Rows y, y+1, ... of layer z; cpalist starts empty on every row. */
  function LayerFrom(body: LoopBody, n0: int, n1: int, s: Loop, y: int, z: int): Result<Loop>
    decreases n1 - y
  {
    if y >= n1 then Ok(s)
    else
      var s' :- RowFrom(body, n0, s.(cpalist := []), 0, y, z);
      LayerFrom(body, n0, n1, s', y + 1, z)
  }

  /** Layers z, z+1, ... */
  function GridFrom(body: LoopBody, n0: int, n1: int, n2: int, s: Loop, z: int): Result<Loop>
    decreases n2 - z
  {
    if z >= n2 then Ok(s)
    else
      var s' :- LayerFrom(body, n0, n1, s, 0, z);
      GridFrom(body, n0, n1, n2, s', z + 1)
  }

  /** What is left of the grid after a row or a layer ends with `r`. */
  function AfterLayer(body: LoopBody, n0: int, n1: int, n2: int, r: Result<Loop>, z: int): Result<Loop>
  {
    match r
    case Err(e) => Err(e)
    case Ok(s) => GridFrom(body, n0, n1, n2, s, z + 1)
  }

  function AfterRow(body: LoopBody, n0: int, n1: int, r: Result<Loop>, y: int, z: int): Result<Loop>
  {
    match r
    case Err(e) => Err(e)
    case Ok(s) => LayerFrom(body, n0, n1, s, y + 1, z)
  }

  /** The loop body of construct for layout `c`. */
  function ApaBody(c: Layout): LoopBody
  {
    (s: Loop, x: int, y: int, z: int) => ApaStep(c, s, x, y, z)
  }

  /** The outcome of the whole placement loop. */
  function Modules(c: Layout): Result<Loop>
  {
    GridFrom(ApaBody(c), c.n0, c.n1, c.n2, Start, 0)
  }

  /** The nested z, y, x loops of construct. */
  method PlaceModules(c: Layout) returns (r: Result<Loop>)
    ensures r == Modules(c)
  {
    var body := ApaBody(c);
    var s := Start;
    var z := 0;
    while z < c.n2
      invariant Modules(c) == GridFrom(body, c.n0, c.n1, c.n2, s, z)
      decreases c.n2 - z
    {
      var y := 0;
      while y < c.n1
        invariant Modules(c) == AfterLayer(body, c.n0, c.n1, c.n2, LayerFrom(body, c.n0, c.n1, s, y, z), z)
        decreases c.n1 - y
      {
        s := s.(cpalist := []);
        var x := 0;
        while x < c.n0
          invariant Modules(c) ==
                    AfterLayer(body, c.n0, c.n1, c.n2, AfterRow(body, c.n0, c.n1, RowFrom(body, c.n0, s, x, y, z), y, z), z)
          decreases c.n0 - x
        {
          var step := ModuleStep(c, s, x, y, z);
          assert step == body(s, x, y, z);
          if step.Err? {
            return Err(step.failure);
          }
          s := step.value;
          x := x + 1;
        }
        y := y + 1;
      }
      z := z + 1;
    }
    r := Ok(s);
  }

  /** The body of the innermost loop, for module (x, y, z). */
  method ModuleStep(c: Layout, s: Loop, x: int, y: int, z: int) returns (r: Result<Loop>)
    ensures r == ApaStep(c, s, x, y, z)
  {
    var ignored := IsIgnoredAPAs(c.ignored, s.apaNum);
    if ignored.Err? {
      return Err(ignored.failure);
    }
    if ignored.value {
      return Ok(s.(apaNum := s.apaNum + 1));
    }
    if c.n0 % 2 != 1 {
      return Err(UnboundLocalError("xpos"));
    }
    if !c.outerAPAs {
      return Err(UnboundLocalError("APAFrame_lv"));
    }
    var t := s.(apaNum := s.apaNum + 1, placed := s.placed + ModulePlacements(c, s.apaNum, x, y, z));
    if !OuterNeg(c, x) {
      t := AddCpa(t, Cpa0Pos(c, x, y, z));
    }
    if !OuterPos(c, x) {
      t := AddCpa(t, Cpa1Pos(c, x, y, z));
    }
    r := Ok(t);
  }

  /** cpalist[p] = 'moot' after PlaceCPA when p is a new key; CPANum += 1. */
  method AddCpa(s: Loop, p: Vec3) returns (t: Loop)
    ensures t == PlaceCpa(s, p)
  {
    t := s;
    if p !in t.cpalist {
      t := t.(placed := t.placed + [CpaPlacement(t.cpaNum, p)], cpalist := t.cpalist + [p]);
    }
    t := t.(cpaNum := t.cpaNum + 1);
  }

  // ---------------------------------------------------------------------------
  // What the loop places

  /** A range's length, 0 when it is empty (Python's len(range(lo, hi))). */
  function Span(lo: int, hi: int): nat
  {
    if hi > lo then hi - lo else 0
  }

  /** k * m as repeated addition, so that peeling off one row or layer of
      the loop stays linear. */
  function Times(k: nat, m: nat): nat
  {
    if k == 0 then 0 else m + Times(k - 1, m)
  }

  lemma {:induction false} TimesIsProduct(k: nat, m: nat)
    ensures Times(k, m) == k * m
  {
    if k > 0 {
      TimesIsProduct(k - 1, m);
    }
  }

  /** Every pass, ignored or not, uses up one APA number and only appends. */
  lemma ApaStepAdvances(c: Layout, s: Loop, x: int, y: int, z: int)
    ensures ApaStep(c, s, x, y, z).Ok? ==>
              ApaStep(c, s, x, y, z).value.apaNum == s.apaNum + 1 && s.placed <= ApaStep(c, s, x, y, z).value.placed
  {
  }

  /** A body that uses up one number per pass. */
  ghost predicate Advancing(body: LoopBody)
  {
    forall s, x, y, z :: body(s, x, y, z).Ok? ==> body(s, x, y, z).value.apaNum == s.apaNum + 1
  }

  lemma {:induction false} RowCount(body: LoopBody, n0: int, s: Loop, x: int, y: int, z: int)
    requires Advancing(body)
    ensures RowFrom(body, n0, s, x, y, z).Ok? ==> RowFrom(body, n0, s, x, y, z).value.apaNum == s.apaNum + Span(x, n0)
    decreases n0 - x
  {
    if x < n0 {
      var r := body(s, x, y, z);
      if r.Ok? {
        RowCount(body, n0, r.value, x + 1, y, z);
      }
    }
  }

  lemma {:induction false} LayerCount(body: LoopBody, n0: int, n1: int, s: Loop, y: int, z: int)
    requires Advancing(body)
    ensures LayerFrom(body, n0, n1, s, y, z).Ok? ==>
              LayerFrom(body, n0, n1, s, y, z).value.apaNum == s.apaNum + Times(Span(y, n1), Span(0, n0))
    decreases n1 - y
  {
    if y < n1 {
      var s0 := s.(cpalist := []);
      RowCount(body, n0, s0, 0, y, z);
      var r := RowFrom(body, n0, s0, 0, y, z);
      if r.Ok? {
        LayerCount(body, n0, n1, r.value, y + 1, z);
        assert Times(Span(y, n1), Span(0, n0)) == Span(0, n0) + Times(Span(y + 1, n1), Span(0, n0));
      }
    }
  }

  lemma {:induction false} GridCount(body: LoopBody, n0: int, n1: int, n2: int, s: Loop, z: int)
    requires Advancing(body)
    ensures GridFrom(body, n0, n1, n2, s, z).Ok? ==>
              GridFrom(body, n0, n1, n2, s, z).value.apaNum == s.apaNum + Times(Span(z, n2), Times(Span(0, n1), Span(0, n0)))
    decreases n2 - z
  {
    if z < n2 {
      LayerCount(body, n0, n1, s, 0, z);
      var r := LayerFrom(body, n0, n1, s, 0, z);
      if r.Ok? {
        GridCount(body, n0, n1, n2, r.value, z + 1);
        var m := Times(Span(0, n1), Span(0, n0));
        assert Times(Span(z, n2), m) == m + Times(Span(z + 1, n2), m);
      }
    }
  }

  lemma ApaBodyAdvances(c: Layout)
    ensures Advancing(ApaBody(c))
  {
    forall s, x, y, z
      ensures ApaBody(c)(s, x, y, z).Ok? ==> ApaBody(c)(s, x, y, z).value.apaNum == s.apaNum + 1
    {
      ApaStepAdvances(c, s, x, y, z);
    }
  }

  /** Ignored APAs still take a number: after the loop APANum is the number
      of module slots, nAPAs[0] * nAPAs[1] * nAPAs[2]. */
  lemma ModulesUseEveryApaNumber(c: Layout)
    ensures Modules(c).Ok? ==> Modules(c).value.apaNum == Span(0, c.n2) * (Span(0, c.n1) * Span(0, c.n0))
  {
    ApaBodyAdvances(c);
    GridCount(ApaBody(c), c.n0, c.n1, c.n2, Start, 0);
    TimesIsProduct(Span(0, c.n1), Span(0, c.n0));
    TimesIsProduct(Span(0, c.n2), Span(0, c.n1) * Span(0, c.n0));
  }

  // The names of the placed TPCs

  predicate IsTpc(p: Placement)
  {
    p.volume == "volTPC" || p.volume == "volTPCOuter"
  }

  /** The names of the TPC placements, in order. */
  function TpcNames(ps: seq<Placement>): seq<string>
  {
    if ps == [] then [] else TpcNames(ps[..|ps| - 1]) + (if IsTpc(ps[|ps| - 1]) then [ps[|ps| - 1].name] else [])
  }

  lemma {:induction false} TpcNamesConcat(a: seq<Placement>, b: seq<Placement>)
    ensures TpcNames(a + b) == TpcNames(a) + TpcNames(b)
    decreases |b|
  {
    if b == [] {
      assert a + b == a;
    } else {
      assert (a + b)[..|a + b| - 1] == a + b[..|b| - 1];
      TpcNamesConcat(a, b[..|b| - 1]);
    }
  }

  /** The ranges a successful pass has read. */
  function IgnoredList(c: Layout): seq<Range>
  {
    if c.ignored.Some? then c.ignored.value else []
  }

  /** The TPC names module number `a` contributes: none when it is ignored. */
  function TpcsOfApa(rs: seq<Range>): nat -> seq<string>
  {
    (a: nat) => if IgnoredIn(rs, a) then [] else [TpcName(2 * a), TpcName(2 * a + 1)]
  }

  /** f(a0) + f(a0 + 1) + ... + f(a0 + count - 1). */
  function Collect(f: nat -> seq<string>, a0: nat, count: nat): seq<string>
  {
    if count == 0 then [] else Collect(f, a0, count - 1) + f(a0 + count - 1)
  }

  lemma {:induction false} CollectConcat(f: nat -> seq<string>, a0: nat, m: nat, n: nat)
    ensures Collect(f, a0, m + n) == Collect(f, a0, m) + Collect(f, a0 + m, n)
    decreases n
  {
    if n > 0 {
      CollectConcat(f, a0, m, n - 1);
      assert a0 + (m + n) - 1 == a0 + m + n - 1;
    }
  }

  lemma CollectOne(f: nat -> seq<string>, a0: nat)
    ensures Collect(f, a0, 1) == f(a0)
  {
    assert Collect(f, a0, 1) == [] + f(a0);
  }

  /** Two consecutive counts merged into one. */
  lemma CollectStep(f: nat -> seq<string>, a0: nat, first: nat, rest: nat, total: nat)
    requires total == first + rest
    ensures Collect(f, a0, total) == Collect(f, a0, first) + Collect(f, a0 + first, rest)
  {
    CollectConcat(f, a0, first, rest);
  }

  /** Names collected over `m` numbers and then over `rest` more. */
  lemma Glue(f: nat -> seq<string>, before: seq<string>, mid: seq<string>, after: seq<string>,
             a: nat, m: nat, rest: nat, total: nat)
    requires mid == before + Collect(f, a, m) && after == mid + Collect(f, a + m, rest) && total == m + rest
    ensures after == before + Collect(f, a, total)
  {
    CollectConcat(f, a, m, rest);
  }

  lemma ModuleNames(c: Layout, a: nat, x: int, y: int, z: int)
    ensures TpcNames(ModulePlacements(c, a, x, y, z)) == [TpcName(2 * a), TpcName(2 * a + 1)]
    ensures CpaPositions(ModulePlacements(c, a, x, y, z)) == []
  {
    var ms := ModulePlacements(c, a, x, y, z);
    assert ms[..2] == [ms[0], ms[1]] && ms[..2][..1] == [ms[0]] && [ms[0]][..0] == [];
    assert IsTpc(ms[0]) && IsTpc(ms[1]) && !IsTpc(ms[2]);
    assert TpcNames([ms[0]]) == [ms[0].name];
    assert TpcNames([ms[0], ms[1]]) == [ms[0].name, ms[1].name];
    assert ms[0].volume != "volCathode" && ms[1].volume != "volCathode" && ms[2].volume != "volCathode";
    assert CpaPositions([ms[0]]) == [];
    assert CpaPositions([ms[0], ms[1]]) == [];
  }

  lemma PlaceCpaTpcs(s: Loop, p: Vec3)
    ensures TpcNames(PlaceCpa(s, p).placed) == TpcNames(s.placed)
  {
    if p !in s.cpalist {
      TpcNamesConcat(s.placed, [CpaPlacement(s.cpaNum, p)]);
      assert [CpaPlacement(s.cpaNum, p)][..0] == [];
    }
  }

  lemma SidesTpcs(s: Loop, first: bool, p0: Vec3, second: bool, p1: Vec3)
    ensures TpcNames(Sides(s, first, p0, second, p1).placed) == TpcNames(s.placed)
  {
    PlaceCpaTpcs(s, p0);
    PlaceCpaTpcs(if first then PlaceCpa(s, p0) else s, p1);
  }

  lemma EnterTpcs(s: Loop, m: Module)
    ensures TpcNames(Enter(s, m).placed) == TpcNames(s.placed) + TpcNames(m.parts)
  {
    TpcNamesConcat(s.placed, m.parts);
    SidesTpcs(s.(apaNum := s.apaNum + 1, placed := s.placed + m.parts), m.first, m.p0, m.second, m.p1);
  }

  lemma AdmitTpcs(c: Layout, s: Loop, x: int, y: int, z: int)
    ensures TpcNames(Admit(c, s, x, y, z).placed) == TpcNames(s.placed) + [TpcName(2 * s.apaNum), TpcName(2 * s.apaNum + 1)]
  {
    var m := ModuleAt(c, s.apaNum, x, y, z);
    ModuleNames(c, s.apaNum, x, y, z);
    EnterTpcs(s, m);
    assert Admit(c, s, x, y, z) == Enter(s, m);
  }

  lemma ApaStepTpcs(c: Layout, s: Loop, x: int, y: int, z: int)
    requires ApaStep(c, s, x, y, z).Ok?
    ensures TpcNames(ApaStep(c, s, x, y, z).value.placed) == TpcNames(s.placed) + TpcsOfApa(IgnoredList(c))(s.apaNum)
  {
    var rs := IgnoredList(c);
    if IgnoredIn(rs, s.apaNum) {
      assert ApaStep(c, s, x, y, z) == Ok(s.(apaNum := s.apaNum + 1));
      assert TpcsOfApa(rs)(s.apaNum) == [];
    } else {
      AdmitTpcs(c, s, x, y, z);
      assert ApaStep(c, s, x, y, z) == Ok(Admit(c, s, x, y, z));
      assert TpcsOfApa(rs)(s.apaNum) == [TpcName(2 * s.apaNum), TpcName(2 * s.apaNum + 1)];
    }
  }

  /** A body that adds the TPC names f(APANum) in each pass. */
  ghost predicate Naming(body: LoopBody, f: nat -> seq<string>)
  {
    forall s, x, y, z :: body(s, x, y, z).Ok? ==>
      TpcNames(body(s, x, y, z).value.placed) == TpcNames(s.placed) + f(s.apaNum)
  }

  lemma {:induction false} RowTpcs(body: LoopBody, f: nat -> seq<string>, n0: int, s: Loop, x: int, y: int, z: int)
    requires Advancing(body) && Naming(body, f)
    ensures RowFrom(body, n0, s, x, y, z).Ok? ==>
              TpcNames(RowFrom(body, n0, s, x, y, z).value.placed) == TpcNames(s.placed) + Collect(f, s.apaNum, Span(x, n0))
    decreases n0 - x
  {
    if x < n0 {
      var r := body(s, x, y, z);
      if r.Ok? {
        RowTpcs(body, f, n0, r.value, x + 1, y, z);
        CollectOne(f, s.apaNum);
        var g := RowFrom(body, n0, r.value, x + 1, y, z);
        if g.Ok? {
          Glue(f, TpcNames(s.placed), TpcNames(r.value.placed), TpcNames(g.value.placed),
               s.apaNum, 1, Span(x + 1, n0), Span(x, n0));
        }
      }
    }
  }

  lemma {:induction false} LayerTpcs(body: LoopBody, f: nat -> seq<string>, n0: int, n1: int, s: Loop, y: int, z: int)
    requires Advancing(body) && Naming(body, f)
    ensures LayerFrom(body, n0, n1, s, y, z).Ok? ==>
              TpcNames(LayerFrom(body, n0, n1, s, y, z).value.placed) ==
              TpcNames(s.placed) + Collect(f, s.apaNum, Times(Span(y, n1), Span(0, n0)))
    decreases n1 - y
  {
    if y < n1 {
      var r := RowFrom(body, n0, s.(cpalist := []), 0, y, z);
      if r.Ok? {
        LayerTpcs(body, f, n0, n1, r.value, y + 1, z);
        RowThenLayer(body, f, n0, n1, s, y, z);
      }
    }
  }

  /** One row, then the rows after it. */
  lemma RowThenLayer(body: LoopBody, f: nat -> seq<string>, n0: int, n1: int, s: Loop, y: int, z: int)
    requires Advancing(body) && Naming(body, f)
    requires y < n1 && RowFrom(body, n0, s.(cpalist := []), 0, y, z).Ok?
    requires var t := RowFrom(body, n0, s.(cpalist := []), 0, y, z).value;
             LayerFrom(body, n0, n1, t, y + 1, z).Ok? ==>
               TpcNames(LayerFrom(body, n0, n1, t, y + 1, z).value.placed) ==
               TpcNames(t.placed) + Collect(f, t.apaNum, Times(Span(y + 1, n1), Span(0, n0)))
    ensures LayerFrom(body, n0, n1, s, y, z).Ok? ==>
              TpcNames(LayerFrom(body, n0, n1, s, y, z).value.placed) ==
              TpcNames(s.placed) + Collect(f, s.apaNum, Times(Span(y, n1), Span(0, n0)))
  {
    var s0 := s.(cpalist := []);
    var t := RowFrom(body, n0, s0, 0, y, z).value;
    RowCount(body, n0, s0, 0, y, z);
    RowTpcs(body, f, n0, s0, 0, y, z);
    assert Times(Span(y, n1), Span(0, n0)) == Span(0, n0) + Times(Span(y + 1, n1), Span(0, n0));
    var g := LayerFrom(body, n0, n1, t, y + 1, z);
    assert LayerFrom(body, n0, n1, s, y, z) == g;
    if g.Ok? {
      Glue(f, TpcNames(s.placed), TpcNames(t.placed), TpcNames(g.value.placed),
           s.apaNum, Span(0, n0), Times(Span(y + 1, n1), Span(0, n0)), Times(Span(y, n1), Span(0, n0)));
    }
  }

  lemma {:induction false} GridTpcs(body: LoopBody, f: nat -> seq<string>, n0: int, n1: int, n2: int, s: Loop, z: int)
    requires Advancing(body) && Naming(body, f)
    ensures GridFrom(body, n0, n1, n2, s, z).Ok? ==>
              TpcNames(GridFrom(body, n0, n1, n2, s, z).value.placed) ==
              TpcNames(s.placed) + Collect(f, s.apaNum, Times(Span(z, n2), Times(Span(0, n1), Span(0, n0))))
    decreases n2 - z
  {
    if z < n2 {
      var r := LayerFrom(body, n0, n1, s, 0, z);
      if r.Ok? {
        GridTpcs(body, f, n0, n1, n2, r.value, z + 1);
        LayerThenGrid(body, f, n0, n1, n2, s, z);
      }
    }
  }

  /** One layer, then the layers after it. */
  lemma LayerThenGrid(body: LoopBody, f: nat -> seq<string>, n0: int, n1: int, n2: int, s: Loop, z: int)
    requires Advancing(body) && Naming(body, f)
    requires z < n2 && LayerFrom(body, n0, n1, s, 0, z).Ok?
    requires var t := LayerFrom(body, n0, n1, s, 0, z).value;
             GridFrom(body, n0, n1, n2, t, z + 1).Ok? ==>
               TpcNames(GridFrom(body, n0, n1, n2, t, z + 1).value.placed) ==
               TpcNames(t.placed) + Collect(f, t.apaNum, Times(Span(z + 1, n2), Times(Span(0, n1), Span(0, n0))))
    ensures GridFrom(body, n0, n1, n2, s, z).Ok? ==>
              TpcNames(GridFrom(body, n0, n1, n2, s, z).value.placed) ==
              TpcNames(s.placed) + Collect(f, s.apaNum, Times(Span(z, n2), Times(Span(0, n1), Span(0, n0))))
  {
    var t := LayerFrom(body, n0, n1, s, 0, z).value;
    var m := Times(Span(0, n1), Span(0, n0));
    LayerCount(body, n0, n1, s, 0, z);
    LayerTpcs(body, f, n0, n1, s, 0, z);
    var rest := Times(Span(z + 1, n2), m);
    assert Times(Span(z, n2), m) == m + rest;
    var g := GridFrom(body, n0, n1, n2, t, z + 1);
    assert GridFrom(body, n0, n1, n2, s, z) == g;
    if g.Ok? {
      Glue(f, TpcNames(s.placed), TpcNames(t.placed), TpcNames(g.value.placed), s.apaNum, m, rest, m + rest);
    }
  }

  lemma ApaBodyNames(c: Layout)
    ensures Naming(ApaBody(c), TpcsOfApa(IgnoredList(c)))
  {
    forall s, x, y, z | ApaBody(c)(s, x, y, z).Ok?
      ensures TpcNames(ApaBody(c)(s, x, y, z).value.placed) == TpcNames(s.placed) + TpcsOfApa(IgnoredList(c))(s.apaNum)
    {
      ApaStepTpcs(c, s, x, y, z);
    }
  }

  /** The TPCs placed are, in order, TPC-2a and TPC-2a+1 for every APA number
      a below the number of module slots that no ignored range holds. */
  lemma TpcNumbering(c: Layout)
    ensures Modules(c).Ok? ==>
              TpcNames(Modules(c).value.placed) ==
              Collect(TpcsOfApa(IgnoredList(c)), 0, Span(0, c.n2) * (Span(0, c.n1) * Span(0, c.n0)))
  {
    var f := TpcsOfApa(IgnoredList(c));
    var m := Times(Span(0, c.n1), Span(0, c.n0));
    ApaBodyAdvances(c);
    ApaBodyNames(c);
    GridTpcs(ApaBody(c), f, c.n0, c.n1, c.n2, Start, 0);
    TimesIsProduct(Span(0, c.n1), Span(0, c.n0));
    TimesIsProduct(Span(0, c.n2), m);
    assert Times(Span(0, c.n2), m) == Span(0, c.n2) * (Span(0, c.n1) * Span(0, c.n0));
    assert TpcNames(Start.placed) == [];
  }

  /** The readout side: only the top row keeps its first TPC unrotated; the
      frame is turned like the first TPC. */
  lemma ReadoutOrientation(c: Layout, a: nat, x: int, y: int, z: int)
    ensures var ps := ModulePlacements(c, a, x, y, z);
            (ps[0].rot == "identity" <==> y == c.n1 - 1) && (ps[1].rot == "r180aboutY" <==> y == c.n1 - 1) &&
            (y != c.n1 - 1 ==> ps[0].rot == "r180aboutX" && ps[1].rot == "r180aboutX_180aboutY") &&
            ps[2].rot == ps[0].rot
  {
  }

  // The cathodes

  /** Neighbouring modules of a row share the cathode between them: the
      second side of module x is the first side of module x + 1. */
  lemma SharedCathode(c: Layout, x: int, y: int, z: int)
    requires 0 <= x < c.n0 - 1
    ensures Cpa1Pos(c, x, y, z) == Cpa0Pos(c, x + 1, y, z)
  {
    var p := ApaPitchX(c);
    assert ((x + 1) as real) * p == (x as real) * p + p;
  }

  /** The positions of the cathode placements, in order. */
  function CpaPositions(ps: seq<Placement>): seq<Vec3>
  {
    if ps == [] then []
    else CpaPositions(ps[..|ps| - 1]) + (if ps[|ps| - 1].volume == "volCathode" then [ps[|ps| - 1].pos] else [])
  }

  lemma {:induction false} CpaPositionsConcat(a: seq<Placement>, b: seq<Placement>)
    ensures CpaPositions(a + b) == CpaPositions(a) + CpaPositions(b)
    decreases |b|
  {
    if b == [] {
      assert a + b == a;
    } else {
      assert (a + b)[..|a + b| - 1] == a + b[..|b| - 1];
      CpaPositionsConcat(a, b[..|b| - 1]);
    }
  }

  predicate Distinct(q: seq<Vec3>)
  {
    forall i, j :: 0 <= i < j < |q| ==> q[i] != q[j]
  }

  /** Since `s0`, only appended placements, cathodes at distinct positions
      that are keys of cpalist now and were not then. */
  predicate RowInv(s0: Loop, s: Loop)
  {
    s0.placed <= s.placed &&
    (forall p :: p in s0.cpalist ==> p in s.cpalist) &&
    Distinct(CpaPositions(s.placed[|s0.placed|..])) &&
    (forall p :: p in CpaPositions(s.placed[|s0.placed|..]) ==> p in s.cpalist && p !in s0.cpalist)
  }

  lemma PlaceCpaKeeps(s0: Loop, s: Loop, p: Vec3)
    requires RowInv(s0, s)
    ensures RowInv(s0, PlaceCpa(s, p))
  {
    if p !in s.cpalist {
      var t := PlaceCpa(s, p);
      var old_ := s.placed[|s0.placed|..];
      assert t.placed[|s0.placed|..] == old_ + [CpaPlacement(s.cpaNum, p)];
      CpaPositionsConcat(old_, [CpaPlacement(s.cpaNum, p)]);
      assert [CpaPlacement(s.cpaNum, p)][..0] == [];
      assert CpaPositions(t.placed[|s0.placed|..]) == CpaPositions(old_) + [p];
    }
  }

  lemma ModuleKeeps(s0: Loop, s: Loop, ms: seq<Placement>, a: nat)
    requires RowInv(s0, s) && CpaPositions(ms) == []
    ensures RowInv(s0, s.(apaNum := a, placed := s.placed + ms))
  {
    var old_ := s.placed[|s0.placed|..];
    assert (s.placed + ms)[|s0.placed|..] == old_ + ms;
    CpaPositionsConcat(old_, ms);
  }

  lemma SidesKeeps(s0: Loop, s: Loop, first: bool, p0: Vec3, second: bool, p1: Vec3)
    requires RowInv(s0, s)
    ensures RowInv(s0, Sides(s, first, p0, second, p1))
  {
    if first {
      PlaceCpaKeeps(s0, s, p0);
    }
    PlaceCpaKeeps(s0, if first then PlaceCpa(s, p0) else s, p1);
  }

  lemma EnterKeeps(s0: Loop, s: Loop, m: Module)
    requires RowInv(s0, s) && CpaPositions(m.parts) == []
    ensures RowInv(s0, Enter(s, m))
  {
    var t := s.(apaNum := s.apaNum + 1, placed := s.placed + m.parts);
    assert Enter(s, m) == Sides(t, m.first, m.p0, m.second, m.p1);
    ModuleKeeps(s0, s, m.parts, s.apaNum + 1);
    assert RowInv(s0, t);
    SidesKeeps(s0, t, m.first, m.p0, m.second, m.p1);
  }

  lemma AdmitKeeps(c: Layout, s0: Loop, s: Loop, x: int, y: int, z: int)
    requires RowInv(s0, s)
    ensures RowInv(s0, Admit(c, s, x, y, z))
  {
    var m := ModuleAt(c, s.apaNum, x, y, z);
    ModuleNames(c, s.apaNum, x, y, z);
    EnterKeeps(s0, s, m);
    assert Admit(c, s, x, y, z) == Enter(s, m);
  }

  lemma ApaStepKeeps(c: Layout, s0: Loop, s: Loop, x: int, y: int, z: int)
    requires RowInv(s0, s) && ApaStep(c, s, x, y, z).Ok?
    ensures RowInv(s0, ApaStep(c, s, x, y, z).value)
  {
    if IgnoredIn(IgnoredList(c), s.apaNum) {
      assert ApaStep(c, s, x, y, z) == Ok(s.(apaNum := s.apaNum + 1));
    } else {
      AdmitKeeps(c, s0, s, x, y, z);
      assert ApaStep(c, s, x, y, z) == Ok(Admit(c, s, x, y, z));
    }
  }

  /** A body that never places a cathode twice since the start of a row. */
  ghost predicate KeepsRowInv(body: LoopBody)
  {
    forall s0, s, x, y, z :: RowInv(s0, s) && body(s, x, y, z).Ok? ==> RowInv(s0, body(s, x, y, z).value)
  }

  lemma ApaBodyKeeps(c: Layout)
    ensures KeepsRowInv(ApaBody(c))
  {
    forall s0, s, x, y, z | RowInv(s0, s) && ApaBody(c)(s, x, y, z).Ok?
      ensures RowInv(s0, ApaBody(c)(s, x, y, z).value)
    {
      ApaStepKeeps(c, s0, s, x, y, z);
    }
  }

  lemma {:induction false} RowKeeps(body: LoopBody, n0: int, s0: Loop, s: Loop, x: int, y: int, z: int)
    requires KeepsRowInv(body) && RowInv(s0, s)
    ensures RowFrom(body, n0, s, x, y, z).Ok? ==> RowInv(s0, RowFrom(body, n0, s, x, y, z).value)
    decreases n0 - x
  {
    if x < n0 {
      var r := body(s, x, y, z);
      if r.Ok? {
        RowKeeps(body, n0, s0, r.value, x + 1, y, z);
      }
    }
  }

  /** Within a row, a cathode position is placed at most once (and never
      when it is already a key of cpalist): the shared cathode between two
      modules is placed by the first of them only. */
  lemma RowCathodesDistinct(c: Layout, s: Loop, x: int, y: int, z: int)
    ensures RowFrom(ApaBody(c), c.n0, s, x, y, z).Ok? ==>
              var f := RowFrom(ApaBody(c), c.n0, s, x, y, z).value;
              s.placed <= f.placed && Distinct(CpaPositions(f.placed[|s.placed|..])) &&
              forall p :: p in CpaPositions(f.placed[|s.placed|..]) ==> p !in s.cpalist
  {
    assert s.placed[|s.placed|..] == [];
    ApaBodyKeeps(c);
    RowKeeps(ApaBody(c), c.n0, s, s, x, y, z);
  }

  /** CPANum advances for every cathode side, placed or not, and the cathode
      is named after the value it had. */
  lemma CpaNumbering(s: Loop, p: Vec3)
    ensures PlaceCpa(s, p).cpaNum == s.cpaNum + 1 && p in PlaceCpa(s, p).cpalist
    ensures p in s.cpalist ==> PlaceCpa(s, p).placed == s.placed
    ensures p !in s.cpalist ==> PlaceCpa(s, p).placed == s.placed + [Placement(CpaName(s.cpaNum), "volCathode", p, NoRot)]
  {
  }

  // ---------------------------------------------------------------------------
  // The external beams

  /** What GetPosBeam reads: the outer cryostat size, BeamInnerDim, and the
      number and spacing of the beams along each axis. */
  datatype BeamGrid = BeamGrid(outer: Vec3, beamInner: Vec3, nBeamX: int, sepX: real,
                               nBeamY: int, sepY: real, nBeamZ: int, sepZ: real)

  /** Beam i of n beams spaced by sep, centred on 0. */
  function Along(i: int, n: int, sep: real): real
  {
    (i as real) * sep - 0.5 * ((n - 1) as real) * sep
  }

  /** Beams mirrored through the centre: beam n-1-i sits opposite beam i. */
  lemma AlongSymmetric(i: int, n: int, sep: real)
    ensures Along(n - 1 - i, n, sep) == -Along(i, n, sep)
  {
    assert ((n - 1 - i) as real) * sep == ((n - 1) as real) * sep - (i as real) * sep;
  }

  /** Neighbouring beams are one separation apart. */
  lemma AlongSpacing(i: int, n: int, sep: real)
    ensures Along(i + 1, n, sep) - Along(i, n, sep) == sep
  {
    assert ((i + 1) as real) * sep == (i as real) * sep + sep;
  }

  function Negate(v: real, opposite: bool): real
  {
    if opposite then -v else v
  }

  /** GetPosBeam: the first of x, y, z that is given decides the face; the
      beam sits half-way between the outer box and BeamInnerDim on that face,
      on the opposite face when `opposite`; nothing is returned (None) when
      no index is given. */
  function GetPosBeam(b: BeamGrid, x: Option<int>, y: Option<int>, z: Option<int>, opposite: bool): (r: Option<Vec3>)
    ensures r.None? <==> x.None? && y.None? && z.None?
    ensures x.Some? ==> r.value.y == 0.0 && r.value.z == Along(x.value, b.nBeamX, b.sepX)
    ensures x.None? && y.Some? ==> r.value.x == 0.0 && r.value.z == Along(y.value, b.nBeamY, b.sepY)
    ensures x.None? && y.None? && z.Some? ==> r.value.y == 0.0 && r.value.x == Along(z.value, b.nBeamZ, b.sepZ)
  {
    if x.Some? then
      Some(Vec3(Negate((b.outer.x + b.beamInner.x) / 4.0, opposite), 0.0, Along(x.value, b.nBeamX, b.sepX)))
    else if y.Some? then
      Some(Vec3(0.0, Negate((b.outer.y + b.beamInner.y) / 4.0, opposite), Along(y.value, b.nBeamY, b.sepY)))
    else if z.Some? then
      Some(Vec3(Along(z.value, b.nBeamZ, b.sepZ), 0.0, Negate((b.outer.z + b.beamInner.z) / 4.0, opposite)))
    else None
  }

  /** `opposite` mirrors the beam through the face's plane: exactly the
      coordinate across the chosen face changes sign, the others stay. */
  lemma OppositeMirrors(b: BeamGrid, x: Option<int>, y: Option<int>, z: Option<int>)
    requires x.Some? || y.Some? || z.Some?
    ensures var p, q := GetPosBeam(b, x, y, z, false).value, GetPosBeam(b, x, y, z, true).value;
            if x.Some? then q == Vec3(-p.x, p.y, p.z)
            else if y.Some? then q == Vec3(p.x, -p.y, p.z)
            else q == Vec3(p.x, p.y, -p.z)
  {
  }

  /** The distance of the beam from the centre across its face. */
  function BeamRadius(b: BeamGrid, x: Option<int>, y: Option<int>, z: Option<int>): real
  {
    if x.Some? then (b.outer.x + b.beamInner.x) / 4.0
    else if y.Some? then (b.outer.y + b.beamInner.y) / 4.0
    else (b.outer.z + b.beamInner.z) / 4.0
  }

  /** Across its face the beam is at +-BeamRadius, + unless `opposite`. */
  lemma BeamAcrossFace(b: BeamGrid, x: Option<int>, y: Option<int>, z: Option<int>, opposite: bool)
    requires x.Some? || y.Some? || z.Some?
    ensures var p, r := GetPosBeam(b, x, y, z, opposite).value, BeamRadius(b, x, y, z);
            (if x.Some? then p.x else if y.Some? then p.y else p.z) == (if opposite then -r else r)
  {
  }

  /** With the construct's dimensions the beam's centre is in the middle of
      the IPE beam layer: half a beam height inside the outer wall and half
      a beam height outside the steel skin. */
  lemma BeamSitsInWarmLayer(inner: Vec3, l: Layers, nBeamX: int, sepX: real, nBeamY: int, sepY: real,
                            nBeamZ: int, sepZ: real, x: Option<int>, y: Option<int>, z: Option<int>)
    requires x.Some? || y.Some? || z.Some?
    ensures var b := BeamGrid(OuterDim(inner, l), BeamInnerDim(inner, l), nBeamX, sepX, nBeamY, sepY, nBeamZ, sepZ);
            var r := BeamRadius(b, x, y, z);
            var (o, i) := if x.Some? then (b.outer.x, b.beamInner.x)
                          else if y.Some? then (b.outer.y, b.beamInner.y)
                          else (b.outer.z, b.beamInner.z);
            o / 2.0 - r == l.ipeBeamHeight / 2.0 && r - i / 2.0 == l.ipeBeamHeight / 2.0
  {
  }

  /** BuildBeamShape: the beam box less the two boxes cut out beside the
      web, the volume written to the beam file. */
  function BeamShapeVolume(length: real, base: real, height: real, thickf: real, thickw: real): (v: real)
    ensures v == length * (2.0 * base * thickf + (height - 2.0 * thickf) * thickw)
  {
    var sub := [height - thickf * 2.0, length, base / 2.0 - thickw / 2.0];
    assert (height - 2.0 * thickf) * (base / 2.0 - thickw / 2.0) * 2.0 == (height - 2.0 * thickf) * (base - thickw);
    length * base * height - 2.0 * (sub[0] * sub[1] * sub[2])
  }

  // ---------------------------------------------------------------------------
  // The rows written for larfd/CalculateBeamVolume.py

  /** The suffixes ConstructAllBeam gives its beams. */
  predicate IsPlane(p: string)
  {
    p == "PosX" || p == "NegX" || p == "PosY" || p == "NegY" || p == "PosZ" || p == "NegZ"
  }

  function BeamRowName(num: nat, plane: string): string
  {
    "Beam_" + NatToString(num) + plane
  }

  function FloorRowName(num: nat, plane: string): string
  {
    "BeamFloor_" + NatToString(num) + plane
  }

  /** The row of the hole drilled through a floor beam. */
  function HoleRowName(num: nat, plane: string): string
  {
    FloorRowName(num, plane) + "_hole"
  }

  function SmallRowName(num: nat, plane: string): string
  {
    "BeamSmall_" + NatToString(num) + plane
  }

  function DssRowName(i: nat): string
  {
    "DSS" + NatToString(i)
  }

  /** After the fixed prefix a beam name holds only digits and plane letters. */
  lemma TailChars(num: nat, plane: string)
    requires IsPlane(plane)
    ensures forall k :: 0 <= k < |NatToString(num) + plane| ==>
              IsDigit((NatToString(num) + plane)[k]) || (NatToString(num) + plane)[k] in "PosNegXYZ"
  {
    NatToStringDigits(num);
  }

  /** A character absent from `t` occurs in pre + t only inside `pre`. */
  lemma OnlyInPrefix(pre: string, t: string, c: char)
    requires c !in t
    ensures forall i :: 0 <= i < |pre + t| && (pre + t)[i] == c ==> i < |pre| && pre[i] == c
  {
    forall i | |pre| <= i < |pre + t|
      ensures (pre + t)[i] != c
    {
      assert (pre + t)[i] == t[i - |pre|];
    }
  }

  /** Every beam row lands in the accumulator of its kind: main, floor and
      small beams by their name, and a floor beam's hole row as a hole. */
  lemma BeamRowsClassified(num: nat, plane: string)
    requires IsPlane(plane)
    ensures BeamVolume.Classify(BeamRowName(num, plane)) == BeamVolume.Main
    ensures BeamVolume.Classify(FloorRowName(num, plane)) == BeamVolume.Floor
    ensures BeamVolume.Classify(HoleRowName(num, plane)) == BeamVolume.FloorHole
    ensures BeamVolume.Classify(SmallRowName(num, plane)) == BeamVolume.Small
  {
    MainRow(num, plane);
    FloorRow(num, plane);
    HoleRow(num, plane);
    SmallRow(num, plane);
  }

  lemma MainRow(num: nat, plane: string)
    requires IsPlane(plane)
    ensures var b := BeamRowName(num, plane);
            Contains(b, "Beam") && !Contains(b, "BeamFloor") && !Contains(b, "BeamSmall")
  {
    TailChars(num, plane);
    var t := NatToString(num) + plane;
    assert BeamRowName(num, plane) == "Beam_" + t;
    MainShape(t);
  }

  lemma MainShape(t: string)
    requires 'B' !in t
    ensures var b := "Beam_" + t;
            Contains(b, "Beam") && !Contains(b, "BeamFloor") && !Contains(b, "BeamSmall")
  {
    var b := "Beam_" + t;
    assert b == "Beam" + ("_" + t);
    PrefixOccurs("Beam", "_" + t);
    OnlyInPrefix("Beam_", t, 'B');
    assert b[4] == '_';
    if 9 <= |b| {
      assert b[0..9][4] == '_';
    }
    FirstCharOnlyAt(b, "BeamFloor", 0);
    FirstCharOnlyAt(b, "BeamSmall", 0);
  }

  lemma FloorRow(num: nat, plane: string)
    requires IsPlane(plane)
    ensures var f := FloorRowName(num, plane);
            Contains(f, "BeamFloor") && !Contains(f, "hole")
  {
    TailChars(num, plane);
    var t := NatToString(num) + plane;
    assert FloorRowName(num, plane) == "BeamFloor_" + t;
    FloorShape(t);
  }

  lemma FloorShape(t: string)
    requires 'h' !in t
    ensures var f := "BeamFloor_" + t;
            Contains(f, "BeamFloor") && !Contains(f, "hole")
  {
    var f := "BeamFloor_" + t;
    assert f == "BeamFloor" + ("_" + t);
    PrefixOccurs("BeamFloor", "_" + t);
    FirstCharAbsent(f, "hole");
  }

  lemma HoleRow(num: nat, plane: string)
    ensures var h := HoleRowName(num, plane);
            Contains(h, "BeamFloor") && Contains(h, "hole")
  {
    var t := NatToString(num) + plane;
    assert HoleRowName(num, plane) == "BeamFloor_" + t + "_hole";
    HoleShape(t);
  }

  lemma HoleShape(t: string)
    ensures var h := "BeamFloor_" + t + "_hole";
            Contains(h, "BeamFloor") && Contains(h, "hole")
  {
    var h := "BeamFloor_" + t + "_hole";
    assert h == "BeamFloor" + ("_" + t + "_hole");
    PrefixOccurs("BeamFloor", "_" + t + "_hole");
    assert h == ("BeamFloor_" + t + "_") + "hole";
    SuffixOccurs("BeamFloor_" + t + "_", "hole");
  }

  lemma SmallRow(num: nat, plane: string)
    requires IsPlane(plane)
    ensures var m := SmallRowName(num, plane);
            !Contains(m, "BeamFloor") && Contains(m, "BeamSmall")
  {
    TailChars(num, plane);
    var t := NatToString(num) + plane;
    assert SmallRowName(num, plane) == "BeamSmall_" + t;
    SmallShape(t);
  }

  lemma SmallShape(t: string)
    requires 'B' !in t
    ensures var m := "BeamSmall_" + t;
            !Contains(m, "BeamFloor") && Contains(m, "BeamSmall")
  {
    var m := "BeamSmall_" + t;
    assert m == "BeamSmall" + ("_" + t);
    PrefixOccurs("BeamSmall", "_" + t);
    OnlyInPrefix("BeamSmall_", t, 'B');
    assert m[0..9][4] == 'S';
    FirstCharOnlyAt(m, "BeamFloor", 0);
  }

  /** The detector support beams are written to the beam file too, but no
      test of the script matches "DSS" names: their volume is not counted. */
  lemma DssRowsIgnored(i: nat)
    ensures BeamVolume.Classify(DssRowName(i)) == BeamVolume.Ignored
  {
    var d := NatToString(i);
    NatToStringDigits(i);
    var n := DssRowName(i);
    assert forall c :: c in n ==> c == 'D' || c == 'S' || IsDigit(c);
    FirstCharAbsent(n, "BeamFloor");
    FirstCharAbsent(n, "BeamSmall");
    FirstCharAbsent(n, "Beam");
    FirstCharAbsent(n, "membrane");
    FirstCharAbsent(n, "layer2");
    FirstCharAbsent(n, "layer3");
    FirstCharAbsent(n, "warmskin");
  }

  /** The volume of the box `inner` grown by `t` on every side. */
  function GrownBoxVolume(inner: Vec3, t: real): real
  {
    (inner.x + 2.0 * t) * (inner.y + 2.0 * t) * (inner.z + 2.0 * t)
  }

  /** ConstructOnion's rows: the volume of each shell as the difference of
      the boxes inside and outside it. */
  function OnionRows(inner: Vec3, l: Layers): seq<BeamVolume.Row>
  {
    var v0 := GrownBoxVolume(inner, 0.0);
    var v1 := GrownBoxVolume(inner, l.layer1);
    var v2 := GrownBoxVolume(inner, l.layer1 + l.layer2);
    var v3 := GrownBoxVolume(inner, l.layer1 + l.layer2 + l.layer3);
    var v4 := GrownBoxVolume(inner, l.layer1 + l.layer2 + l.layer3 + l.steel);
    [BeamVolume.Row("membrane", v1 - v0), BeamVolume.Row("layer2", v2 - v1),
     BeamVolume.Row("layer3", v3 - v2), BeamVolume.Row("warmskin", v4 - v3)]
  }

  /** Each onion row goes to the accumulator of its own layer. */
  lemma OnionNamesClassified()
    ensures BeamVolume.Classify("membrane") == BeamVolume.Membrane
    ensures BeamVolume.Classify("layer2") == BeamVolume.Layer2
    ensures BeamVolume.Classify("layer3") == BeamVolume.Layer3
    ensures BeamVolume.Classify("warmskin") == BeamVolume.Warmskin
  {
    FirstCharAbsent("membrane", "Beam");
    SelfContained("membrane");
    FirstCharAbsent("layer2", "Beam");
    FirstCharAbsent("layer2", "membrane");
    SelfContained("layer2");
    FirstCharAbsent("layer3", "Beam");
    FirstCharAbsent("layer3", "membrane");
    assert "layer3"[0..6][5] != "layer2"[5];
    FirstCharOnlyAt("layer3", "layer2", 0);
    SelfContained("layer3");
    FirstCharAbsent("warmskin", "Beam");
    FirstCharOnlyAt("warmskin", "membrane", 3);
    FirstCharAbsent("warmskin", "layer2");
    FirstCharAbsent("warmskin", "layer3");
    SelfContained("warmskin");
  }

  /** Four rows named after the layers, read back by the script. */
  lemma ShellRows(a: real, b: real, c: real, d: real)
    ensures BeamVolume.Tally([BeamVolume.Row("membrane", a), BeamVolume.Row("layer2", b),
                              BeamVolume.Row("layer3", c), BeamVolume.Row("warmskin", d)]) ==
            BeamVolume.Zero.(membrane := a, layer2 := b, layer3 := c, warmskin := d)
  {
    OnionNamesClassified();
    var r0, r1, r2, r3 := BeamVolume.Row("membrane", a), BeamVolume.Row("layer2", b),
                          BeamVolume.Row("layer3", c), BeamVolume.Row("warmskin", d);
    assert [r0][..0] == [];
    assert BeamVolume.Tally([r0]) == BeamVolume.Zero.(membrane := a);
    assert [r0, r1][..1] == [r0];
    assert BeamVolume.Tally([r0, r1]) == BeamVolume.Zero.(membrane := a, layer2 := b);
    assert [r0, r1, r2][..2] == [r0, r1];
    assert BeamVolume.Tally([r0, r1, r2]) == BeamVolume.Zero.(membrane := a, layer2 := b, layer3 := c);
    assert [r0, r1, r2, r3][..3] == [r0, r1, r2];
  }

  /** Read back by the script, the onion rows leave the beam totals at zero
      and the four shells add up to the box under the steel skin less the
      liquid argon box. */
  lemma OnionTally(inner: Vec3, l: Layers)
    ensures var t := BeamVolume.Tally(OnionRows(inner, l));
            BeamVolume.TotalVolume(t) == 0.0 && t.mainCount == 0 && t.floorCount == 0 && t.smallCount == 0 &&
            t.membrane + t.layer2 + t.layer3 + t.warmskin ==
              GrownBoxVolume(inner, l.layer1 + l.layer2 + l.layer3 + l.steel) - GrownBoxVolume(inner, 0.0)
  {
    var rows := OnionRows(inner, l);
    ShellRows(rows[0].volume, rows[1].volume, rows[2].volume, rows[3].volume);
  }
}
