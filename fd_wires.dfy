/** The FD-VD wire builder (dunefdvd/Wires.py): generating each plane's wire
    list from the global parameters, the per-plane "generated" flags, the
    WireInfo property and the wire volumes construct adds. The clipping and
    the channel loop of the induction planes are those of WireClip. */
module FdWires {
  import opened Wrappers
  import opened WireClip
  import opened Strings
  import opened Placements
  import ParamStore

  /** The three readout planes; generate_wires numbers them 0, 1 and 2. */
  datatype Plane = U | V | Z

  function PlaneId(p: Plane): (i: nat)
    ensures i < 3
  {
    match p
    case U => 0
    case V => 1
    case Z => 2
  }

  function PlaneOf(i: nat): (p: Plane)
    requires i < 3
    ensures PlaneId(p) == i
  {
    if i == 0 then U else if i == 1 then V else Z
  }

  /** Plane numbers name the planes one to one. */
  lemma PlaneIdRoundTrip(p: Plane)
    ensures PlaneOf(PlaneId(p)) == p
  {
  }

  function PlaneName(p: Plane): string
  {
    match p
    case U => "U"
    case V => "V"
    case Z => "Z"
  }

  /** The parameter `"wirePitch" + plane`. */
  function PitchKey(p: Plane): ParamStore.Key
  {
    match p
    case U => ParamStore.wirePitchU
    case V => ParamStore.wirePitchV
    case Z => ParamStore.wirePitchZ
  }

  /** The parameter `"wireAngle" + plane` (the Z plane has none). */
  function AngleKey(p: Plane): ParamStore.Key
    requires p != Z
  {
    if p == U then ParamStore.wireAngleU else ParamStore.wireAngleV
  }

  /** One entry of a plane's wire list: a Z strip `['', zpos, 0., length]`
      or an induction-plane wire record. */
  datatype Info = Strip(zpos: real, len: real) | Segment(w: Wire)

  /** A wire volume: its name, its radius and its half length. */
  datatype WireVolume = WireVolume(name: string, rmax: real, halfLength: real)

  /** The builder's state: `winfos`, `_generated` and the volumes added. */
  datatype Builder = Builder(winfos: map<Plane, seq<Info>>, generated: seq<bool>, volumes: seq<WireVolume>)

  /** Python's `all(...)`. */
  predicate AllGenerated(g: seq<bool>)
  {
    forall i :: 0 <= i < |g| ==> g[i]
  }

  /** `globals.get(key).magnitude`: the store exits on a missing key, and a
      value that is not a quantity has no magnitude. */
  function Quantity(st: ParamStore.Store, k: ParamStore.Key): (r: Result<real>)
    ensures r.Ok? <==> k in st.params && st.params[k].Num?
    ensures r.Ok? ==> r.value == st.params[k].r
  {
    var v :- ParamStore.Lookup(st, k);
    if v.Num? then Ok(v.r) else Err(AttributeError("magnitude"))
  }

  /** Python's truth value of a parameter. */
  predicate Truthy(v: ParamStore.Value)
  {
    match v
    case Num(r) => r != 0.0
    case Flag(b) => b
    case Dict(d) => |d| > 0
    case List(l) => |l| > 0
    case Text(s) => |s| > 0
  }


  // ---------------------------------------------------------------------
  // generate_wires

  /** What generate_wires reads before it resets the plane's list: the
      channel counts, the pitch and the wire angle in degrees (0 for Z);
      the wire diameter is read and not used. */
  datatype Head = Head(nchs: ParamStore.Value, pitch: real, theta: real)

  function ReadHead(st: ParamStore.Store, p: Plane): Result<Head>
  {
    var nchs :- ParamStore.Lookup(st, ParamStore.nChans);
    var pitch :- Quantity(st, PitchKey(p));
    var theta :- if p == Z then Ok(0.0) else Quantity(st, AngleKey(p));
    var dia :- Quantity(st, ParamStore.padWidth);
    Ok(Head(nchs, pitch, theta))
  }

  /** The position of Z strip `ch` of `nch`, centred on zero. */
  function ZPos(ch: int, nch: int, pitch: real): real
  {
    ((ch as real) + 0.5 * (1.0 - nch as real)) * pitch
  }

  /** The first `n` strips of a Z plane of `nch` channels. */
  function ZStrips(n: nat, nch: int, pitch: real, length: real): (s: seq<Info>)
    ensures |s| == n
  {
    seq(n, k requires 0 <= k < n => Strip(ZPos(k, nch, pitch), length))
  }

  /** The layout of an induction plane: the rectangle, the wire direction at
      `theta` and the pitch direction at `theta - 90` degrees (`dir` gives
      the cosine and the sine of an angle in degrees), the start at the
      corner the pitch direction points away from, and half a pitch of
      starting offset. */
  function UVLayout(length: real, width: real, pitch: real, theta: real, dir: real -> (real, real)): (l: Layout)
    ensures l.length == length && l.width == width && l.pitch == pitch && l.offset0 == pitch / 2.0
    ensures (l.nx, l.ny) == dir(theta) && (l.px, l.py) == dir(theta - 90.0)
    ensures l.ox == (if l.px < 0.0 then length else 0.0) && l.oy == (if l.py < 0.0 then width else 0.0)
  {
    var w := dir(theta);
    var d := dir(theta - 90.0);
    var o := Origin(length, width, d.0, d.1, 0.0, 0.0);
    Layout(length, width, pitch, w.0, w.1, d.0, d.1, o.0, o.1, pitch / 2.0)
  }

  function Segments(ws: seq<Wire>): (es: seq<Info>)
    ensures |es| == |ws| && forall i :: 0 <= i < |ws| ==> es[i] == Segment(ws[i])
  {
    seq(|ws|, i requires 0 <= i < |ws| => Segment(ws[i]))
  }

  /** The reads after the reset and the plane's wire list: Z strips across
      TPCActive_y, or the induction wires clipped to the active area shrunk
      by 0.02 cm each way. */
  function ReadBody(st: ParamStore.Store, p: Plane, h: Head, dir: real -> (real, real), sqrt: real -> real)
    : Result<seq<Info>>
  {
    if p == Z then
      var length :- Quantity(st, ParamStore.TPCActive_y);
      var nch :- ParamStore.Entry(h.nchs, "Col");
      Ok(ZStrips(RangeLen(nch), nch, h.pitch, length))
    else
      var lengthZ :- Quantity(st, ParamStore.TPCActive_z);
      var widthY :- Quantity(st, ParamStore.TPCActive_y);
      var nch :- ParamStore.Entry(h.nchs, if p == U then "Ind1" else "Ind2");
      var nchb :- ParamStore.Entry(h.nchs, "Ind1Bot");
      Ok(Segments(Generated(UVLayout(lengthZ - 0.02, widthY - 0.02, h.pitch, h.theta, dir), RangeLen(nch), sqrt)))
  }

  /** generate_wires: nothing once every plane is generated; otherwise the
      plane's list is reset after the first reads, filled, and the plane
      marked generated. A failing read leaves what was done before it. */
  function Generate(b: Builder, st: ParamStore.Store, p: Plane, dir: real -> (real, real), sqrt: real -> real)
    : (Result<()>, Builder)
  {
    if AllGenerated(b.generated) then (Ok(()), b)
    else
      match ReadHead(st, p)
      case Err(f) => (Err(f), b)
      case Ok(h) =>
        match ReadBody(st, p, h, dir, sqrt)
        case Err(f) => (Err(f), b.(winfos := b.winfos[p := []]))
        case Ok(es) =>
          (Ok(()), b.(winfos := b.winfos[p := es],
                      generated := if PlaneId(p) < |b.generated| then b.generated[PlaneId(p) := true]
                                   else b.generated))
  }

  /** Once every plane is generated, generate_wires changes nothing. */
  lemma GenerateDone(b: Builder, st: ParamStore.Store, p: Plane, dir: real -> (real, real), sqrt: real -> real)
    requires AllGenerated(b.generated)
    ensures Generate(b, st, p, dir, sqrt) == (Ok(()), b)
  {
  }

  /** generate_wires never clears a flag or touches the volumes, and
      touches no other plane's list. */
  lemma GenerateFrame(b: Builder, st: ParamStore.Store, p: Plane, dir: real -> (real, real), sqrt: real -> real)
    ensures var b' := Generate(b, st, p, dir, sqrt).1;
      |b'.generated| == |b.generated| && b'.volumes == b.volumes &&
      (forall i :: 0 <= i < |b.generated| && b.generated[i] ==> b'.generated[i]) &&
      (forall q :: q != p ==> (q in b'.winfos <==> q in b.winfos) && (q in b.winfos ==> b'.winfos[q] == b.winfos[q]))
  {
  }

  /** A successful generate_wires leaves the plane generated with its list
      in place (or finds every plane generated already). */
  lemma GenerateMarks(b: Builder, st: ParamStore.Store, p: Plane, dir: real -> (real, real), sqrt: real -> real)
    requires |b.generated| == 3
    requires Generate(b, st, p, dir, sqrt).0.Ok?
    ensures var b' := Generate(b, st, p, dir, sqrt).1;
      b'.generated[PlaneId(p)] && (AllGenerated(b.generated) || p in b'.winfos)
  {
  }

  /** The Z strips are spaced one pitch apart and symmetric about zero, and
      each spans the given length. */
  lemma ZStripsCentred(nch: nat, pitch: real, length: real)
    ensures var s := ZStrips(nch, nch, pitch, length);
      (forall k :: 0 <= k < nch ==> s[k].Strip? && s[k].len == length && s[k].zpos == -s[nch - 1 - k].zpos) &&
      (forall k :: 0 <= k < nch - 1 ==> s[k + 1].zpos - s[k].zpos == pitch)
  {
    forall k | 0 <= k < nch
      ensures ZPos(k, nch, pitch) == -ZPos(nch - 1 - k, nch, pitch)
    {
      calc {
        ZPos(nch - 1 - k, nch, pitch);
        ((nch - 1 - k) as real + 0.5 * (1.0 - nch as real)) * pitch;
        (0.5 * (nch as real - 1.0) - k as real) * pitch;
        -ZPos(k, nch, pitch);
      }
    }
  }

  /** An induction plane's list holds the wires of channels below its
      channel count that clip, each once, in increasing channel order. */
  lemma UVChannels(st: ParamStore.Store, p: Plane, h: Head, dir: real -> (real, real), sqrt: real -> real)
    requires p != Z && ReadBody(st, p, h, dir, sqrt).Ok?
    ensures var es := ReadBody(st, p, h, dir, sqrt).value;
      var n := ParamStore.Entry(h.nchs, if p == U then "Ind1" else "Ind2").value;
      (forall k :: 0 <= k < |es| ==> es[k].Segment? && 0 <= es[k].w.ch < n && Centred(es[k].w)) &&
      (forall i, j :: 0 <= i < j < |es| ==> es[i].w.ch < es[j].w.ch)
  {
    var lengthZ := Quantity(st, ParamStore.TPCActive_z).value;
    var widthY := Quantity(st, ParamStore.TPCActive_y).value;
    var n := ParamStore.Entry(h.nchs, if p == U then "Ind1" else "Ind2").value;
    var l := UVLayout(lengthZ - 0.02, widthY - 0.02, h.pitch, h.theta, dir);
    var g := Generated(l, RangeLen(n), sqrt);
    var es := ReadBody(st, p, h, dir, sqrt).value;
    assert es == Segments(g);
    GeneratedChannels(l, RangeLen(n), sqrt);
    GeneratedCentred(l, RangeLen(n), sqrt);
    forall k | 0 <= k < |es|
      ensures es[k].Segment? && 0 <= es[k].w.ch < n && Centred(es[k].w)
    {
      assert g[k] in g;
    }
  }

  /** WireInfo: the wire lists once every plane is generated, else `sys.exit(1)`. */
  function WireInfoOf(b: Builder): (r: Result<map<Plane, seq<Info>>>)
    ensures r.Ok? <==> AllGenerated(b.generated)
    ensures r.Ok? ==> r.value == b.winfos
    ensures r.Err? ==> r.failure == SystemExit(1)
  {
    if !AllGenerated(b.generated) then Err(SystemExit(1)) else Ok(b.winfos)
  }

  // ---------------------------------------------------------------------
  // construct

  /** The name of an entry's volume: `'volTPCWire' + plane + str(wire[0])`. */
  function InfoName(p: Plane, e: Info): string
  {
    "volTPCWire" + PlaneName(p) + (match e case Strip(_, _) => "" case Segment(w) => IntToString(w.ch))
  }

  function InfoLength(e: Info): real
  {
    match e
    case Strip(_, len) => len
    case Segment(w) => w.len
  }

  /** `0.5 * globals.get("padWidth")`. */
  function HalfPad(st: ParamStore.Store): Result<real>
  {
    var v :- ParamStore.Lookup(st, ParamStore.padWidth);
    var pad :- ParamStore.AsNum(v);
    Ok(0.5 * pad)
  }

  function VolumeOf(p: Plane, e: Info, rmax: real): WireVolume
  {
    WireVolume(InfoName(p, e), rmax, 0.5 * InfoLength(e))
  }

  /** The volumes of one plane: a single one for the Z plane, from its first
      strip (an empty list has none: IndexError), and one per wire for an
      induction plane. */
  function PlaneVolumes(st: ParamStore.Store, p: Plane, winfo: seq<Info>): (r: Result<seq<WireVolume>>)
    ensures r.Ok? && p == Z ==> |r.value| == 1
    ensures r.Ok? && p != Z ==>
              |r.value| == |winfo| && forall i :: 0 <= i < |winfo| ==> r.value[i].name == InfoName(p, winfo[i])
    ensures p == Z && |winfo| == 0 ==> r == Err(IndexError)
  {
    if p == Z then
      if |winfo| == 0 then Err(IndexError)
      else
        var rmax :- HalfPad(st);
        Ok([VolumeOf(Z, winfo[0], rmax)])
    else if |winfo| == 0 then Ok([])
    else
      var rmax :- HalfPad(st);
      Ok(seq(|winfo|, i requires 0 <= i < |winfo| => VolumeOf(p, winfo[i], rmax)))
  }

  /** The plane loop of construct: generate the plane, then add its volumes. */
  function PlanesFrom(b: Builder, st: ParamStore.Store, ps: seq<Plane>, dir: real -> (real, real), sqrt: real -> real)
    : (Result<()>, Builder)
    decreases |ps|
  {
    if |ps| == 0 then (Ok(()), b)
    else
      var (r, b1) := Generate(b, st, ps[0], dir, sqrt);
      if r.Err? then (r, b1)
      else if ps[0] !in b1.winfos then (Err(KeyError(PlaneName(ps[0]))), b1)
      else
        match PlaneVolumes(st, ps[0], b1.winfos[ps[0]])
        case Err(f) => (Err(f), b1)
        case Ok(vs) => PlanesFrom(b1.(volumes := b1.volumes + vs), st, ps[1..], dir, sqrt)
  }

  /** construct after `globals.SetDerived()` (whose outcome is `d`): nothing
      when the global "wires" is false, otherwise the planes U, V and Z in
      that order. */
  function ConstructAfter(b: Builder, d: Result<ParamStore.Store>, dir: real -> (real, real), sqrt: real -> real)
    : (Result<()>, Builder)
  {
    match d
    case Err(f) => (Err(f), b)
    case Ok(st) =>
      match ParamStore.Lookup(st, ParamStore.wires)
      case Err(f) => (Err(f), b)
      case Ok(w) => if !Truthy(w) then (Ok(()), b) else PlanesFrom(b, st, [U, V, Z], dir, sqrt)
  }

  /** With "wires" false, construct leaves the builder as it is. */
  lemma ConstructNoWires(b: Builder, st: ParamStore.Store, dir: real -> (real, real), sqrt: real -> real)
    requires ParamStore.wires in st.params && !Truthy(st.params[ParamStore.wires])
    ensures ConstructAfter(b, Ok(st), dir, sqrt) == (Ok(()), b)
  {
  }

  /** The plane loop keeps the flags it finds set. */
  lemma {:induction false} PlanesKeepFlags(b: Builder, st: ParamStore.Store, ps: seq<Plane>,
                                          dir: real -> (real, real), sqrt: real -> real)
    ensures var b' := PlanesFrom(b, st, ps, dir, sqrt).1;
      |b'.generated| == |b.generated| &&
      forall i :: 0 <= i < |b.generated| && b.generated[i] ==> b'.generated[i]
    decreases |ps|
  {
    if |ps| > 0 {
      GenerateFrame(b, st, ps[0], dir, sqrt);
      var (r, b1) := Generate(b, st, ps[0], dir, sqrt);
      if r.Ok? && ps[0] in b1.winfos {
        var vr := PlaneVolumes(st, ps[0], b1.winfos[ps[0]]);
        if vr.Ok? {
          PlanesKeepFlags(b1.(volumes := b1.volumes + vr.value), st, ps[1..], dir, sqrt);
        }
      }
    }
  }

  /** A plane loop that succeeds leaves every plane it visited generated. */
  lemma {:induction false} PlanesGenerate(b: Builder, st: ParamStore.Store, ps: seq<Plane>,
                                         dir: real -> (real, real), sqrt: real -> real)
    requires |b.generated| == 3
    requires PlanesFrom(b, st, ps, dir, sqrt).0.Ok?
    ensures |PlanesFrom(b, st, ps, dir, sqrt).1.generated| == 3
    ensures forall p :: p in ps ==> PlanesFrom(b, st, ps, dir, sqrt).1.generated[PlaneId(p)]
    decreases |ps|
  {
    PlanesKeepFlags(b, st, ps, dir, sqrt);
    if |ps| > 0 {
      GenerateFrame(b, st, ps[0], dir, sqrt);
      GenerateMarks(b, st, ps[0], dir, sqrt);
      var b1 := Generate(b, st, ps[0], dir, sqrt).1;
      var b2 := b1.(volumes := b1.volumes + PlaneVolumes(st, ps[0], b1.winfos[ps[0]]).value);
      PlanesGenerate(b2, st, ps[1..], dir, sqrt);
      PlanesKeepFlags(b2, st, ps[1..], dir, sqrt);
      forall p | p in ps
        ensures PlanesFrom(b, st, ps, dir, sqrt).1.generated[PlaneId(p)]
      {
        if p != ps[0] {
          assert p in ps[1..];
        }
      }
    }
  }

  /** After a successful construct with "wires" true, WireInfo is available. */
  lemma ConstructEnablesWireInfo(b: Builder, st: ParamStore.Store, dir: real -> (real, real), sqrt: real -> real)
    requires |b.generated| == 3
    requires ParamStore.wires in st.params && Truthy(st.params[ParamStore.wires])
    requires ConstructAfter(b, Ok(st), dir, sqrt).0.Ok?
    ensures WireInfoOf(ConstructAfter(b, Ok(st), dir, sqrt).1).Ok?
  {
    PlanesGenerate(b, st, [U, V, Z], dir, sqrt);
    var after := PlanesFrom(b, st, [U, V, Z], dir, sqrt).1;
    assert ConstructAfter(b, Ok(st), dir, sqrt).1 == after;
    forall i | 0 <= i < |after.generated|
      ensures after.generated[i]
    {
      assert PlaneOf(i) in [U, V, Z];
    }
  }

  /** The volumes of an induction plane whose channels increase have
      pairwise distinct names. */
  lemma UVVolumeNamesDistinct(st: ParamStore.Store, p: Plane, ws: seq<Wire>)
    requires p != Z
    requires forall k :: 0 <= k < |ws| ==> ws[k].ch >= 0
    requires forall i, j :: 0 <= i < j < |ws| ==> ws[i].ch < ws[j].ch
    requires PlaneVolumes(st, p, Segments(ws)).Ok?
    ensures var vs := PlaneVolumes(st, p, Segments(ws)).value;
      forall i, j :: 0 <= i < j < |vs| ==> vs[i].name != vs[j].name
  {
    var es := Segments(ws);
    var vs := PlaneVolumes(st, p, es).value;
    forall i, j | 0 <= i < j < |vs|
      ensures vs[i].name != vs[j].name
    {
      var pre := "volTPCWire" + PlaneName(p);
      assert vs[i].name == pre + NatToString(ws[i].ch);
      assert vs[j].name == pre + NatToString(ws[j].ch);
      if vs[i].name == vs[j].name {
        assert NatToString(ws[i].ch) == vs[i].name[|pre|..];
        assert NatToString(ws[j].ch) == vs[j].name[|pre|..];
        NatToStringInjective(ws[i].ch, ws[j].ch);
      }
    }
  }

  // ---------------------------------------------------------------------
  // The class

  /** `WiresBuilder`: the wire lists, the per-plane flags (a list of three
      booleans) and the volumes the builder has added. */
  class WiresBuilder {
    var winfos: map<Plane, seq<Info>>
    const generated: array<bool>
    var volumes: seq<WireVolume>

    predicate Valid()
      reads this
    {
      generated.Length == 3
    }

    function State(): Builder
      reads this, generated
    {
      Builder(winfos, generated[..], volumes)
    }

    /** configure: no wire lists and no plane generated. */
    constructor ()
      ensures Valid() && fresh(generated)
      ensures State() == Builder(map[], [false, false, false], [])
    {
      winfos := map[];
      generated := new bool[3](_ => false);
      volumes := [];
    }

    /** One pass of construct's plane loop: the wires of the first plane of
        `ps`, then its volumes. */
    method BuildPlane(ps: seq<Plane>, g: ParamStore.Params, dir: real -> (real, real), sqrt: real -> real)
      returns (r: Result<()>)
      requires Valid() && |ps| > 0
      modifies this, generated
      ensures Valid()
      ensures r.Err? ==> (r, State()) == PlanesFrom(old(State()), g.State(), ps, dir, sqrt)
      ensures r.Ok? ==> PlanesFrom(State(), g.State(), ps[1..], dir, sqrt) == PlanesFrom(old(State()), g.State(), ps, dir, sqrt)
    {
      var p := ps[0];
      var gr := GenerateWires(p, g, dir, sqrt);
      if gr.Err? {
        return gr;
      }
      if p !in winfos {
        return Err(KeyError(PlaneName(p)));
      }
      r := AddPlaneVolumes(p, g);
    }

    method GenerateWires(p: Plane, g: ParamStore.Params, dir: real -> (real, real), sqrt: real -> real)
      returns (r: Result<()>)
      requires Valid()
      modifies this, generated
      ensures Valid()
      ensures (r, State()) == Generate(old(State()), g.State(), p, dir, sqrt)
    {
      if AllGenerated(generated[..]) {
        return Ok(());
      }
      var nchs := g.Get(ParamStore.nChans);
      if nchs.Err? {
        return Err(nchs.failure);
      }
      var pitch := Quantity(g.State(), PitchKey(p));
      if pitch.Err? {
        return Err(pitch.failure);
      }
      var theta := 0.0;
      if p != Z {
        var t := Quantity(g.State(), AngleKey(p));
        if t.Err? {
          return Err(t.failure);
        }
        theta := t.value;
      }
      var dia := Quantity(g.State(), ParamStore.padWidth);
      if dia.Err? {
        return Err(dia.failure);
      }
      ghost var h := Head(nchs.value, pitch.value, theta);
      assert ReadHead(g.State(), p) == Ok(h);
      // The list is reset here and filled by the loop; FillPlane does not
      // read it, so the reset and the fill are written once each.
      var es := FillPlane(p, nchs.value, pitch.value, theta, g, dir, sqrt);
      if es.Err? {
        winfos := winfos[p := []];
        return Err(es.failure);
      }
      winfos := winfos[p := es.value];
      generated[PlaneId(p)] := true;
      assert generated[..] == old(generated[..])[PlaneId(p) := true];
      r := Ok(());
    }

    /** The collection-plane loop: one strip per channel. */
    static method FillStrips(nch: int, pitch: real, length: real) returns (strips: seq<Info>)
      ensures strips == ZStrips(RangeLen(nch), nch, pitch, length)
    {
      strips := [];
      var ch := 0;
      while ch < nch
        invariant 0 <= ch <= RangeLen(nch)
        invariant strips == ZStrips(ch, nch, pitch, length)
      {
        strips := strips + [Strip(ZPos(ch, nch, pitch), length)];
        ch := ch + 1;
      }
    }

    method FillPlane(p: Plane, nchs: ParamStore.Value, pitch: real, theta: real, g: ParamStore.Params,
                     dir: real -> (real, real), sqrt: real -> real)
      returns (r: Result<seq<Info>>)
      ensures r == ReadBody(g.State(), p, Head(nchs, pitch, theta), dir, sqrt)
    {
      if p == Z {
        r := FillCollection(nchs, pitch, theta, g);
      } else {
        r := FillInduction(p, nchs, pitch, theta, g, dir, sqrt);
      }
    }

    /** The collection plane's strips. */
    method FillCollection(nchs: ParamStore.Value, pitch: real, theta: real, g: ParamStore.Params)
      returns (r: Result<seq<Info>>)
      ensures forall dir, sqrt :: r == ReadBody(g.State(), Z, Head(nchs, pitch, theta), dir, sqrt)
    {
      var length := Quantity(g.State(), ParamStore.TPCActive_y);
      if length.Err? {
        return Err(length.failure);
      }
      var nch := ParamStore.Entry(nchs, "Col");
      if nch.Err? {
        return Err(nch.failure);
      }
      var strips := FillStrips(nch.value, pitch, length.value);
      return Ok(strips);
    }

    /** An induction plane's clipped wires. */
    method FillInduction(p: Plane, nchs: ParamStore.Value, pitch: real, theta: real, g: ParamStore.Params,
                         dir: real -> (real, real), sqrt: real -> real)
      returns (r: Result<seq<Info>>)
      requires p != Z
      ensures r == ReadBody(g.State(), p, Head(nchs, pitch, theta), dir, sqrt)
    {
      var lengthZ := Quantity(g.State(), ParamStore.TPCActive_z);
      if lengthZ.Err? {
        return Err(lengthZ.failure);
      }
      var widthY := Quantity(g.State(), ParamStore.TPCActive_y);
      if widthY.Err? {
        return Err(widthY.failure);
      }
      var nch := ParamStore.Entry(nchs, if p == U then "Ind1" else "Ind2");
      if nch.Err? {
        return Err(nch.failure);
      }
      var nchb := ParamStore.Entry(nchs, "Ind1Bot");
      if nchb.Err? {
        return Err(nchb.failure);
      }
      var layout := UVLayout(lengthZ.value - 0.02, widthY.value - 0.02, pitch, theta, dir);
      var ws := WireClip.GenerateWires(layout, RangeLen(nch.value), sqrt);
      r := Ok(Segments(ws));
    }

    /** The WireInfo property. */
    method WireInfo() returns (r: Result<map<Plane, seq<Info>>>)
      ensures r == WireInfoOf(State())
    {
      if !AllGenerated(generated[..]) {
        return Err(SystemExit(1));
      }
      r := Ok(winfos);
    }

    /** Adds the volumes of one plane's wire list, reading the pad width for
        each volume as construct does. */
    method AddPlaneVolumes(p: Plane, g: ParamStore.Params) returns (r: Result<()>)
      requires Valid() && p in winfos
      modifies this
      ensures Valid() && winfos == old(winfos)
      ensures var pv := PlaneVolumes(g.State(), p, old(winfos)[p]);
        match pv
        case Ok(vs) => r.Ok? && volumes == old(volumes) + vs
        case Err(f) => r == Err(f) && volumes == old(volumes)
    {
      var winfo := winfos[p];
      if p == Z {
        if |winfo| == 0 {
          return Err(IndexError);
        }
        var rmax := HalfPad(g.State());
        if rmax.Err? {
          return Err(rmax.failure);
        }
        volumes := volumes + [VolumeOf(Z, winfo[0], rmax.value)];
        return Ok(());
      }
      ghost var vols0 := volumes;
      ghost var pad := HalfPad(g.State());
      var i := 0;
      while i < |winfo|
        invariant 0 <= i <= |winfo| && winfos == old(winfos)
        invariant i > 0 ==> pad.Ok?
        invariant pad.Ok? ==> volumes == vols0 + seq(i, k requires 0 <= k < i => VolumeOf(p, winfo[k], pad.value))
        invariant pad.Err? ==> volumes == vols0
      {
        var rmax := HalfPad(g.State());
        if rmax.Err? {
          return Err(rmax.failure);
        }
        volumes := volumes + [VolumeOf(p, winfo[i], rmax.value)];
        i := i + 1;
      }
      r := Ok(());
    }

    /** construct: SetDerived, then, when "wires" is true, each plane in the
        order U, V, Z is generated and its volumes added. */
    method Construct(g: ParamStore.Params, dir: real -> (real, real), sqrt: real -> real) returns (r: Result<()>)
      requires Valid()
      modifies this, generated, g
      ensures Valid()
      ensures (r, State()) == ConstructAfter(old(State()), ParamStore.SetDerivedState(old(g.State())), dir, sqrt)
      ensures g.State() == (if ParamStore.SetDerivedState(old(g.State())).Ok?
                            then ParamStore.SetDerivedState(old(g.State())).value else old(g.State()))
    {
      var d := g.SetDerived();
      if d.Err? {
        return Err(d.failure);
      }
      var w := g.Get(ParamStore.wires);
      if w.Err? {
        return Err(w.failure);
      }
      if !Truthy(w.value) {
        return Ok(());
      }
      var planes := [U, V, Z];
      var i := 0;
      while i < |planes|
        invariant 0 <= i <= |planes| && Valid()
        invariant g.State() == ParamStore.SetDerivedState(old(g.State())).value
        invariant PlanesFrom(State(), g.State(), planes[i..], dir, sqrt) == PlanesFrom(old(State()), g.State(), planes, dir, sqrt)
      {
        var pr := BuildPlane(planes[i..], g, dir, sqrt);
        if pr.Err? {
          return pr;
        }
        assert planes[i..][1..] == planes[i + 1..];
        i := i + 1;
      }
      r := Ok(());
    }
  }
}
