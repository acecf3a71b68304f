/** The FD-VD parameter store (dunefdvd/utils/globals.py): seven parameter
    sections with their defaults, the global map `_params` the sections are
    copied into, the section setters, the one-time computation of the derived
    parameters and the lookup by key. Quantities are numbers in cm (angles in
    degrees). */
module ParamStore {
  import opened Wrappers

  /** A parameter value: a number (an int, a float or a quantity's
      magnitude), a bool, a dictionary of channel counts, a list of numbers
      or a string. */
  datatype Value =
    | Num(r: real)
    | Flag(b: bool)
    | Dict(entries: map<string, int>)
    | List(items: seq<real>)
    | Text(s: string)

  /** The parameter names the sections use, each written as its own name;
      `Other` is any other name a setter's input brings. */
  datatype Key =
    | FieldCage_switch
    | Cathode_switch
    | workspace
    | pdsconfig
    | wires
    | tpc
    | nChans
    | wirePitchU
    | wirePitchV
    | wirePitchZ
    | wireAngleU
    | wireAngleV
    | widthPCBActive
    | borderCRM
    | borderCRP
    | nCRM_y
    | nCRM_z
    | nCRM_x
    | driftTPCActive
    | padWidth
    | Argon_x
    | Argon_y
    | Argon_z
    | HeightGaseousAr
    | SteelThickness
    | SteelSupport_x
    | SteelSupport_y
    | SteelSupport_z
    | FoamPadding
    | FracMassOfSteel
    | SpaceSteelSupportToWall
    | SpaceSteelSupportToCeiling
    | RockThickness
    | FieldShaperInnerRadius
    | FieldShaperOuterRadius
    | FieldShaperOuterRadiusSlim
    | FieldShaperTorRad
    | FieldCageArapucaWindowLength
    | FieldShaperSeparation
    | heightCathode
    | CathodeBorder
    | widthCathodeVoid
    | lengthCathodeVoid
    | ArapucaOut_x
    | ArapucaOut_y
    | ArapucaOut_z
    | ArapucaIn_x
    | ArapucaIn_y
    | ArapucaIn_z
    | ArapucaAcceptanceWindow_x
    | ArapucaAcceptanceWindow_y
    | ArapucaAcceptanceWindow_z
    | GapPD
    | FrameToArapucaSpace
    | FrameToArapucaSpaceLat
    | VerticalPDdist
    | FirstFrameVertDist
    | nViews
    | lengthPCBActive
    | widthCRM_active
    | lengthCRM_active
    | widthCRM
    | lengthCRM
    | widthTPCActive
    | lengthTPCActive
    | ReadoutPlane
    | anodePlateWidth
    | TPCActive_x
    | TPCActive_y
    | TPCActive_z
    | TPC_x
    | TPC_y
    | TPC_z
    | xLArBuffer
    | yLArBuffer
    | zLArBuffer
    | Cryostat_x
    | Cryostat_y
    | Cryostat_z
    | TPCEnclosure_x
    | TPCEnclosure_y
    | TPCEnclosure_z
    | FracMassOfAir
    | DetEncX
    | DetEncY
    | DetEncZ
    | posCryoInDetEnc_x
    | OriginXSet
    | OriginYSet
    | OriginZSet
    | FieldShaperLongTubeLength
    | FieldShaperShortTubeLength
    | FieldShaperLength
    | FieldShaperWidth
    | NFieldShapers
    | FieldCageSizeX
    | FieldCageSizeY
    | FieldCageSizeZ
    | widthCathode
    | lengthCathode
    | list_posy_bot
    | list_posz_bot
    | Other(name: string)

  /** The name a key stands for. */
  function Name(k: Key): string
  {
    match k
    case FieldCage_switch => "FieldCage_switch"
    case Cathode_switch => "Cathode_switch"
    case workspace => "workspace"
    case pdsconfig => "pdsconfig"
    case wires => "wires"
    case tpc => "tpc"
    case nChans => "nChans"
    case wirePitchU => "wirePitchU"
    case wirePitchV => "wirePitchV"
    case wirePitchZ => "wirePitchZ"
    case wireAngleU => "wireAngleU"
    case wireAngleV => "wireAngleV"
    case widthPCBActive => "widthPCBActive"
    case borderCRM => "borderCRM"
    case borderCRP => "borderCRP"
    case nCRM_y => "nCRM_y"
    case nCRM_z => "nCRM_z"
    case nCRM_x => "nCRM_x"
    case driftTPCActive => "driftTPCActive"
    case padWidth => "padWidth"
    case Argon_x => "Argon_x"
    case Argon_y => "Argon_y"
    case Argon_z => "Argon_z"
    case HeightGaseousAr => "HeightGaseousAr"
    case SteelThickness => "SteelThickness"
    case SteelSupport_x => "SteelSupport_x"
    case SteelSupport_y => "SteelSupport_y"
    case SteelSupport_z => "SteelSupport_z"
    case FoamPadding => "FoamPadding"
    case FracMassOfSteel => "FracMassOfSteel"
    case SpaceSteelSupportToWall => "SpaceSteelSupportToWall"
    case SpaceSteelSupportToCeiling => "SpaceSteelSupportToCeiling"
    case RockThickness => "RockThickness"
    case FieldShaperInnerRadius => "FieldShaperInnerRadius"
    case FieldShaperOuterRadius => "FieldShaperOuterRadius"
    case FieldShaperOuterRadiusSlim => "FieldShaperOuterRadiusSlim"
    case FieldShaperTorRad => "FieldShaperTorRad"
    case FieldCageArapucaWindowLength => "FieldCageArapucaWindowLength"
    case FieldShaperSeparation => "FieldShaperSeparation"
    case heightCathode => "heightCathode"
    case CathodeBorder => "CathodeBorder"
    case widthCathodeVoid => "widthCathodeVoid"
    case lengthCathodeVoid => "lengthCathodeVoid"
    case ArapucaOut_x => "ArapucaOut_x"
    case ArapucaOut_y => "ArapucaOut_y"
    case ArapucaOut_z => "ArapucaOut_z"
    case ArapucaIn_x => "ArapucaIn_x"
    case ArapucaIn_y => "ArapucaIn_y"
    case ArapucaIn_z => "ArapucaIn_z"
    case ArapucaAcceptanceWindow_x => "ArapucaAcceptanceWindow_x"
    case ArapucaAcceptanceWindow_y => "ArapucaAcceptanceWindow_y"
    case ArapucaAcceptanceWindow_z => "ArapucaAcceptanceWindow_z"
    case GapPD => "GapPD"
    case FrameToArapucaSpace => "FrameToArapucaSpace"
    case FrameToArapucaSpaceLat => "FrameToArapucaSpaceLat"
    case VerticalPDdist => "VerticalPDdist"
    case FirstFrameVertDist => "FirstFrameVertDist"
    case nViews => "nViews"
    case lengthPCBActive => "lengthPCBActive"
    case widthCRM_active => "widthCRM_active"
    case lengthCRM_active => "lengthCRM_active"
    case widthCRM => "widthCRM"
    case lengthCRM => "lengthCRM"
    case widthTPCActive => "widthTPCActive"
    case lengthTPCActive => "lengthTPCActive"
    case ReadoutPlane => "ReadoutPlane"
    case anodePlateWidth => "anodePlateWidth"
    case TPCActive_x => "TPCActive_x"
    case TPCActive_y => "TPCActive_y"
    case TPCActive_z => "TPCActive_z"
    case TPC_x => "TPC_x"
    case TPC_y => "TPC_y"
    case TPC_z => "TPC_z"
    case xLArBuffer => "xLArBuffer"
    case yLArBuffer => "yLArBuffer"
    case zLArBuffer => "zLArBuffer"
    case Cryostat_x => "Cryostat_x"
    case Cryostat_y => "Cryostat_y"
    case Cryostat_z => "Cryostat_z"
    case TPCEnclosure_x => "TPCEnclosure_x"
    case TPCEnclosure_y => "TPCEnclosure_y"
    case TPCEnclosure_z => "TPCEnclosure_z"
    case FracMassOfAir => "FracMassOfAir"
    case DetEncX => "DetEncX"
    case DetEncY => "DetEncY"
    case DetEncZ => "DetEncZ"
    case posCryoInDetEnc_x => "posCryoInDetEnc_x"
    case OriginXSet => "OriginXSet"
    case OriginYSet => "OriginYSet"
    case OriginZSet => "OriginZSet"
    case FieldShaperLongTubeLength => "FieldShaperLongTubeLength"
    case FieldShaperShortTubeLength => "FieldShaperShortTubeLength"
    case FieldShaperLength => "FieldShaperLength"
    case FieldShaperWidth => "FieldShaperWidth"
    case NFieldShapers => "NFieldShapers"
    case FieldCageSizeX => "FieldCageSizeX"
    case FieldCageSizeY => "FieldCageSizeY"
    case FieldCageSizeZ => "FieldCageSizeZ"
    case widthCathode => "widthCathode"
    case lengthCathode => "lengthCathode"
    case list_posy_bot => "list_posy_bot"
    case list_posz_bot => "list_posz_bot"
    case Other(n) => n
  }

  datatype SectionName = World | Tpc | Cryostat | Enclosure | FieldCage | Cathode | Arapuca

  /** The seven class-level dictionaries `_world`, `_tpc`, ..., `_arapuca`. */
  datatype Sections = Sections(world: map<Key, Value>, tpc: map<Key, Value>,
                               cryostat: map<Key, Value>, detenc: map<Key, Value>,
                               fieldcage: map<Key, Value>, cathode: map<Key, Value>,
                               arapuca: map<Key, Value>)
  {
    function Get(n: SectionName): map<Key, Value>
    {
      match n
      case World => world
      case Tpc => tpc
      case Cryostat => cryostat
      case Enclosure => detenc
      case FieldCage => fieldcage
      case Cathode => cathode
      case Arapuca => arapuca
    }

    function Put(n: SectionName, m: map<Key, Value>): Sections
    {
      match n
      case World => this.(world := m)
      case Tpc => this.(tpc := m)
      case Cryostat => this.(cryostat := m)
      case Enclosure => this.(detenc := m)
      case FieldCage => this.(fieldcage := m)
      case Cathode => this.(cathode := m)
      case Arapuca => this.(arapuca := m)
    }
  }

  /** The whole class state: the global map, the sections and `_hasDerived`. */
  datatype Store = Store(params: map<Key, Value>, sections: Sections, hasDerived: bool)

  // ---------------------------------------------------------------------
  // Defaults

  function DefaultWorld(): map<Key, Value>
  {
    map[FieldCage_switch := Flag(true), Cathode_switch := Flag(true), workspace := Num(0.0),
        pdsconfig := Num(0.0), wires := Flag(true), tpc := Flag(true)]
  }

  function DefaultTpc(): map<Key, Value>
  {
    map[nChans := Dict(map["Ind1" := 286, "Ind1Bot" := 96, "Ind2" := 286, "Col" := 292]),
        wirePitchU := Num(0.765), wirePitchV := Num(0.765), wirePitchZ := Num(0.51),
        wireAngleU := Num(150.0), wireAngleV := Num(30.0), widthPCBActive := Num(167.7006),
        borderCRM := Num(0.0), borderCRP := Num(0.5), nCRM_y := Num(8.0), nCRM_z := Num(40.0),
        nCRM_x := Num(2.0), driftTPCActive := Num(650.0), padWidth := Num(0.02)]
  }

  function DefaultCryostat(): map<Key, Value>
  {
    map[Argon_x := Num(1510.0), Argon_y := Num(1510.0), Argon_z := Num(6200.0),
        HeightGaseousAr := Num(100.0), SteelThickness := Num(0.12)]
  }

  function DefaultEnclosure(): map<Key, Value>
  {
    map[SteelSupport_x := Num(100.0), SteelSupport_y := Num(100.0), SteelSupport_z := Num(100.0),
        FoamPadding := Num(80.0), FracMassOfSteel := Num(0.5), SpaceSteelSupportToWall := Num(100.0),
        SpaceSteelSupportToCeiling := Num(100.0), RockThickness := Num(4000.0)]
  }

  function DefaultFieldCage(): map<Key, Value>
  {
    map[FieldShaperInnerRadius := Num(0.5), FieldShaperOuterRadius := Num(2.285),
        FieldShaperOuterRadiusSlim := Num(0.75), FieldShaperTorRad := Num(2.3),
        FieldCageArapucaWindowLength := Num(670.0), FieldShaperSeparation := Num(6.0)]
  }

  function DefaultCathode(): map<Key, Value>
  {
    map[heightCathode := Num(4.0), CathodeBorder := Num(4.0), widthCathodeVoid := Num(76.35),
        lengthCathodeVoid := Num(67.0)]
  }

  function DefaultArapuca(): map<Key, Value>
  {
    map[ArapucaOut_x := Num(65.0), ArapucaOut_y := Num(2.5), ArapucaOut_z := Num(65.0),
        ArapucaIn_x := Num(60.0), ArapucaIn_y := Num(2.0), ArapucaIn_z := Num(60.0),
        ArapucaAcceptanceWindow_x := Num(60.0), ArapucaAcceptanceWindow_y := Num(1.0),
        ArapucaAcceptanceWindow_z := Num(60.0), GapPD := Num(0.5), FrameToArapucaSpace := Num(1.0),
        FrameToArapucaSpaceLat := Num(10.0), VerticalPDdist := Num(75.0),
        FirstFrameVertDist := Num(40.0)]
  }

  function Defaults(): Sections
  {
    Sections(DefaultWorld(), DefaultTpc(), DefaultCryostat(), DefaultEnclosure(),
             DefaultFieldCage(), DefaultCathode(), DefaultArapuca())
  }

  /** The six sections SetDerived copies into `_params`, in its order; a
      later section's entry wins over an earlier one's. */
  function DerivedCopy(s: Sections): map<Key, Value>
  {
    s.tpc + s.cryostat + s.detenc + s.fieldcage + s.cathode + s.arapuca
  }

  /** The class body: `_params` updated with every section, world first. */
  function Initial(): Store
  {
    var s := Defaults();
    Store(s.world + DerivedCopy(s), s, false)
  }

  // ---------------------------------------------------------------------
  // Setters and lookup

  /** A section setter: a non-empty input (Python truthiness; None is the
      empty input) is merged into the section, then the section is copied
      into the global map, whose entries it overwrites. */
  function Setter(st: Store, n: SectionName, input: map<Key, Value>): Store
  {
    var sec := if |input| > 0 then st.sections.Get(n) + input else st.sections.Get(n);
    Store(st.params + sec, st.sections.Put(n, sec), st.hasDerived)
  }

  /** After a setter the global map gives the input's value for every key
      of the input, the section's value for every other key of the section,
      and its old value for every key of neither; the other sections and
      the derived flag do not change. */
  lemma PutGet(s: Sections, n: SectionName, m: map<Key, Value>, n': SectionName)
    ensures s.Put(n, m).Get(n') == if n' == n then m else s.Get(n')
  {
  }

  lemma SetterLaterWins(st: Store, n: SectionName, input: map<Key, Value>, k: Key)
    ensures var st' := Setter(st, n, input);
      (k in input ==> k in st'.params && st'.params[k] == input[k] && st'.sections.Get(n)[k] == input[k]) &&
      (k !in input && k in st.sections.Get(n) ==> st'.params[k] == st.sections.Get(n)[k]) &&
      (k !in input && k !in st.sections.Get(n) ==> (k in st'.params <==> k in st.params)) &&
      (k !in input && k !in st.sections.Get(n) && k in st.params ==> st'.params[k] == st.params[k]) &&
      (forall n' :: n' != n ==> st'.sections.Get(n') == st.sections.Get(n')) &&
      st'.hasDerived == st.hasDerived
  {
    var sec := if |input| > 0 then st.sections.Get(n) + input else st.sections.Get(n);
    PutGet(st.sections, n, sec, n);
    forall n' | n' != n
      ensures Setter(st, n, input).sections.Get(n') == st.sections.Get(n')
    {
      PutGet(st.sections, n, sec, n');
    }
  }

  /** An empty input leaves every section as it is and still re-copies the
      setter's section into the global map. */
  lemma SetterEmptyInput(st: Store, n: SectionName)
    ensures Setter(st, n, map[]).sections == st.sections
    ensures Setter(st, n, map[]).params == st.params + st.sections.Get(n)
  {
    var s := st.sections;
    assert s.Put(n, s.Get(n)) == s by {
      match n
      case World =>
      case Tpc =>
      case Cryostat =>
      case Enclosure =>
      case FieldCage =>
      case Cathode =>
      case Arapuca =>
    }
  }

  /** `get`: the global map's value for the key, or `sys.exit(1)`. */
  function Lookup(st: Store, key: Key): (r: Result<Value>)
    ensures r.Ok? <==> key in st.params
    ensures r.Ok? ==> r.value == st.params[key]
    ensures r.Err? ==> r.failure == SystemExit(1)
  {
    if key !in st.params then Err(SystemExit(1)) else Ok(st.params[key])
  }

  /** A builder's `configure`: keywords the section does not already hold
      are a ValueError; the others replace the section's values through its
      setter. */
  function ConfigureState(st: Store, n: SectionName, kwds: map<Key, Value>): (r: Result<Store>)
    ensures r.Err? <==> !(kwds.Keys <= st.sections.Get(n).Keys)
    ensures r.Err? ==> r.failure.ValueError?
  {
    if !(kwds.Keys <= st.sections.Get(n).Keys) then Err(ValueError("Unknown parameter in"))
    else Ok(Setter(st, n, kwds))
  }

  /** A successful configure keeps the section's keys, gives every keyword
      its new value there and in the global map, and leaves the other
      sections alone. */
  lemma ConfigureKeepsKeys(st: Store, n: SectionName, kwds: map<Key, Value>)
    requires ConfigureState(st, n, kwds).Ok?
    ensures ConfigureState(st, n, kwds).value.sections.Get(n).Keys == st.sections.Get(n).Keys
    ensures forall k :: k in kwds ==>
      ConfigureState(st, n, kwds).value.sections.Get(n)[k] == kwds[k] &&
      ConfigureState(st, n, kwds).value.params[k] == kwds[k]
    ensures forall n' :: n' != n ==> ConfigureState(st, n, kwds).value.sections.Get(n') == st.sections.Get(n')
  {
    var sec := if |kwds| > 0 then st.sections.Get(n) + kwds else st.sections.Get(n);
    PutGet(st.sections, n, sec, n);
    forall n' | n' != n
      ensures Setter(st, n, kwds).sections.Get(n') == st.sections.Get(n')
    {
      PutGet(st.sections, n, sec, n');
    }
  }

  /** Every setter is idempotent. */
  lemma SetterTwice(st: Store, n: SectionName, input: map<Key, Value>)
    ensures Setter(Setter(st, n, input), n, input) == Setter(st, n, input)
  {
    var st' := Setter(st, n, input);
    var sec := if |input| > 0 then st.sections.Get(n) + input else st.sections.Get(n);
    PutGet(st.sections, n, sec, n);
    MergeTwice(st.sections.Get(n), input);
    PutBack(st'.sections, n);
    MergeTwice(st.params, sec);
  }

  lemma MergeTwice<K, V>(a: map<K, V>, b: map<K, V>)
    ensures (a + b) + b == a + b
  {
  }

  lemma PutBack(s: Sections, n: SectionName)
    ensures s.Put(n, s.Get(n)) == s
  {
    match n
    case World =>
    case Tpc =>
    case Cryostat =>
    case Enclosure =>
    case FieldCage =>
    case Cathode =>
    case Arapuca =>
  }

  /** Configuring a section twice with the same keywords is configuring it once. */
  lemma ConfigureTwice(st: Store, n: SectionName, kwds: map<Key, Value>)
    requires ConfigureState(st, n, kwds).Ok?
    ensures ConfigureState(ConfigureState(st, n, kwds).value, n, kwds) == ConfigureState(st, n, kwds)
  {
    ConfigureKeepsKeys(st, n, kwds);
    SetterTwice(st, n, kwds);
  }

  /** `get` of a value used as a number. */
  function LookupNum(st: Store, key: Key): (r: Result<real>)
    ensures r.Ok? ==> key in st.params && AsNum(st.params[key]) == r
    ensures key !in st.params ==> r == Err(SystemExit(1))
  {
    var v :- Lookup(st, key);
    AsNum(v)
  }

  // ---------------------------------------------------------------------
  // Reading values as Python would

  /** `d[key]`, or the KeyError a missing key raises. */
  function Look(m: map<Key, Value>, key: Key): Result<Value>
  {
    if key in m then Ok(m[key]) else Err(KeyError(Name(key)))
  }

  /** A value used in arithmetic: a number, or a bool as 0 or 1. */
  function AsNum(v: Value): Result<real>
  {
    match v
    case Num(r) => Ok(r)
    case Flag(b) => Ok(if b then 1.0 else 0.0)
    case _ => Err(TypeError("unsupported operand type"))
  }

  function Number(m: map<Key, Value>, key: Key): Result<real>
  {
    var v :- Look(m, key);
    AsNum(v)
  }

  /** Python's `v == c` for a number c: false for a value that is not a number. */
  function EqualsNum(v: Value, c: real): bool
  {
    match v
    case Num(r) => r == c
    case Flag(b) => (if b then 1.0 else 0.0) == c
    case _ => false
  }

  function KeyEquals(m: map<Key, Value>, key: Key, c: real): Result<bool>
  {
    var v :- Look(m, key);
    Ok(EqualsNum(v, c))
  }

  /** Python's `len(v)`. */
  function Length(v: Value): Result<nat>
  {
    match v
    case Dict(d) => Ok(|d|)
    case List(l) => Ok(|l|)
    case Text(s) => Ok(|s|)
    case _ => Err(TypeError("object has no len()"))
  }

  /** Python's `v[key]` for a dictionary of channel counts. */
  function Entry(v: Value, key: string): Result<int>
  {
    match v
    case Dict(d) => if key in d then Ok(d[key]) else Err(KeyError(key))
    case _ => Err(TypeError("not subscriptable by a string"))
  }

  // ---------------------------------------------------------------------
  // SetDerived
  //
  // Each derivation reads the section entries it needs in the order
  // SetDerived reads them and keeps the values it has computed in local
  // variables; the section it derives is written once, with its new
  // entries in the order SetDerived assigns them.

  /** The (nCRM_y, nCRM_z, nCRM_x) a workspace number fixes. The seven
      `if workspace == k` tests exclude each other, so at most one applies;
      workspace 0 and any other value keep the configured counts. */
  function WorkspaceCounts(w: Value): Option<(real, real, real)>
  {
    if EqualsNum(w, 1.0) then Some((2.0, 2.0, 1.0))
    else if EqualsNum(w, 2.0) then Some((4.0, 4.0, 1.0))
    else if EqualsNum(w, 3.0) then Some((8.0, 6.0, 1.0))
    else if EqualsNum(w, 4.0) then Some((8.0, 14.0, 1.0))
    else if EqualsNum(w, 5.0) then Some((8.0, 40.0, 1.0))
    else if EqualsNum(w, 6.0) then Some((8.0, 6.0, 2.0))
    else if EqualsNum(w, 7.0) then Some((8.0, 14.0, 2.0))
    else None
  }

  /** A CRM count after the workspace rules: the table's, or the section's. */
  function Count(tpc: map<Key, Value>, key: Key, table: Option<real>): Result<Value>
  {
    if table.Some? then Ok(Num(table.value)) else Look(tpc, key)
  }

  function OptCount(c: Option<(real, real, real)>, i: nat): Option<real>
    requires i < 3
  {
    if c.None? then None else Some(if i == 0 then c.value.0 else if i == 1 then c.value.1 else c.value.2)
  }

  /** The TPC dimensions SetDerived computes, and the values it read to get
      them; later sections are derived from these. `counts` is what the
      workspace fixes, `nx` nCRM_x as the section holds it after the
      workspace rules (None when absent). */
  datatype TpcDims = TpcDims(views: nat, lengthPCB: real, widthPCB: Value, counts: Option<(real, real, real)>,
                             driftV: Value, nx: Option<Value>, ny: real, nz: real, drift: real, readout: real,
                             widthActive: real, lengthActive: real, anode: real,
                             widthCRM: real, lengthCRM: real, borderCRP: real, borderCRM: real)

  /** nCRM_x, or the KeyError its absence raises. */
  function Nx(d: TpcDims): Result<Value>
  {
    if d.nx.Some? then Ok(d.nx.value) else Err(KeyError("nCRM_x"))
  }

  /** The reads and the arithmetic of the TPC part of SetDerived, in its order. */
  function TpcReads(world: map<Key, Value>, tpc: map<Key, Value>): Result<TpcDims>
  {
    var chans :- Look(tpc, nChans);
    var views :- Length(chans);
    var pitchZ :- Number(tpc, wirePitchZ);
    var col :- Entry(chans, "Col");
    var lengthPCB := pitchZ * (col as real);
    var widthPCB :- Look(tpc, widthPCBActive);
    var bCRM :- Number(tpc, borderCRM);
    var wPCB :- AsNum(widthPCB);
    var wCRM := wPCB + 2.0 * bCRM;
    var lCRM := lengthPCB + 2.0 * bCRM;
    var ws :- Look(world, workspace);
    var c := WorkspaceCounts(ws);
    var nyV :- Count(tpc, nCRM_y, OptCount(c, 0));
    var ny :- AsNum(nyV);
    var bCRP :- Number(tpc, borderCRP);
    var nzV :- Count(tpc, nCRM_z, OptCount(c, 1));
    var nz :- AsNum(nzV);
    var pad :- Number(tpc, padWidth);
    var driftV :- Look(tpc, driftTPCActive);
    var drift :- AsNum(driftV);
    var nx := if c.Some? then Some(Num(c.value.2)) else if nCRM_x in tpc then Some(tpc[nCRM_x]) else None;
    Ok(TpcDims(views, lengthPCB, widthPCB, c, driftV, nx, ny, nz, drift, (views as real) * pad,
               ny * (wCRM + bCRP), nz * (lCRM + bCRP), pad / 2.0, wCRM, lCRM, bCRP, bCRM))
  }

  /** The TPC section with the entries SetDerived writes, in its order. */
  function TpcSection(tpc: map<Key, Value>, d: TpcDims): (t: map<Key, Value>)
    ensures tpc.Keys <= t.Keys
  {
    var t := tpc[nViews := Num(d.views as real)][lengthPCBActive := Num(d.lengthPCB)]
                [widthCRM_active := d.widthPCB][lengthCRM_active := Num(d.lengthPCB)]
                [widthCRM := Num(d.widthCRM)][lengthCRM := Num(d.lengthCRM)];
    var t := if d.counts.Some? then t[nCRM_y := Num(d.counts.value.0)][nCRM_z := Num(d.counts.value.1)]
                                     [nCRM_x := Num(d.counts.value.2)]
             else t;
    t[widthTPCActive := Num(d.widthActive)][lengthTPCActive := Num(d.lengthActive)]
     [ReadoutPlane := Num(d.readout)][anodePlateWidth := Num(d.anode)]
     [TPCActive_x := d.driftV][TPCActive_y := d.widthPCB][TPCActive_z := Num(d.lengthPCB)]
     [TPC_x := Num(d.drift + d.readout)][TPC_y := Num(d.widthCRM)][TPC_z := Num(d.lengthCRM)]
  }

  /** The TPC parameters (views, CRM sizes, workspace counts, active volume). */
  function DeriveTpc(world: map<Key, Value>, tpc: map<Key, Value>): (r: Result<(map<Key, Value>, TpcDims)>)
    ensures r.Ok? ==> tpc.Keys <= r.value.0.Keys
  {
    var d :- TpcReads(world, tpc);
    Ok((TpcSection(tpc, d), d))
  }

  /** The cryostat sizes the enclosure is derived from. */
  datatype CryoDims = CryoDims(cryoX: real, cryoY: real, cryoZ: real, steel: real,
                               xBuffer: real, yBuffer: real, zBuffer: real)

  /** The cryostat parameters: outside workspace 0 the argon volume is
      sized to the active volume (its height only for one drift volume). */
  function DeriveCryostat(world: map<Key, Value>, d: TpcDims, cry: map<Key, Value>,
                          cathode: map<Key, Value>): (r: Result<(map<Key, Value>, CryoDims)>)
    ensures r.Ok? ==> cry.Keys <= r.value.0.Keys
  {
    var ws :- Look(world, workspace);
    var resize := !EqualsNum(ws, 0.0);
    var nxFirst :- if resize then Nx(d) else Ok(Num(0.0));
    var setHeight := resize && EqualsNum(nxFirst, 1.0);
    var gasFirst :- if setHeight then Number(cry, HeightGaseousAr) else Ok(0.0);
    var nxV :- Nx(d);
    var argonX :- if setHeight then Ok(d.drift + gasFirst + d.readout + 100.0) else Number(cry, Argon_x);
    var gas :- Number(cry, HeightGaseousAr);
    var hCathode :- Number(cathode, heightCathode);
    var xBuffer := if EqualsNum(nxV, 1.0) then argonX - d.drift - gas - d.readout - hCathode
                   else argonX - 2.0 * d.drift - gas - 2.0 * d.readout - hCathode;
    var argonY :- if resize then Ok(d.widthActive + 162.0) else Number(cry, Argon_y);
    var argonZ :- if resize then Ok(d.lengthActive + 214.0) else Number(cry, Argon_z);
    var steel :- Number(cry, SteelThickness);
    var nx :- AsNum(nxV);
    var c := if setHeight then cry[Argon_x := Num(argonX)] else cry;
    var c := if resize then c[Argon_y := Num(argonY)][Argon_z := Num(argonZ)] else c;
    var dims := CryoDims(argonX + 2.0 * steel, argonY + 2.0 * steel, argonZ + 2.0 * steel, steel,
                         xBuffer, 0.5 * (argonY - d.widthActive), 0.5 * (argonZ - d.lengthActive));
    var c := c[xLArBuffer := Num(xBuffer)][yLArBuffer := Num(dims.yBuffer)][zLArBuffer := Num(dims.zBuffer)]
              [Cryostat_x := Num(dims.cryoX)][Cryostat_y := Num(dims.cryoY)][Cryostat_z := Num(dims.cryoZ)]
              [TPCEnclosure_x := Num(argonX - gas + nx * d.anode - xBuffer)]
              [TPCEnclosure_y := Num(d.ny * (d.widthCRM + d.borderCRP))]
              [TPCEnclosure_z := Num(d.nz * (d.lengthCRM + d.borderCRP))];
    Ok((c, dims))
  }

  /** The enclosure parameters: the air fraction, the enclosure sizes and
      the origin of the active volume in the enclosure. */
  function DeriveEnclosure(d: TpcDims, c: CryoDims, det: map<Key, Value>,
                           cathode: map<Key, Value>): (r: Result<map<Key, Value>>)
    ensures r.Ok? ==> det.Keys <= r.value.Keys
  {
    var steelFrac :- Number(det, FracMassOfSteel);
    var sx :- Number(det, SteelSupport_x);
    var foam :- Number(det, FoamPadding);
    var ceiling :- Number(det, SpaceSteelSupportToCeiling);
    var sy :- Number(det, SteelSupport_y);
    var wall :- Number(det, SpaceSteelSupportToWall);
    var sz :- Number(det, SteelSupport_z);
    var hCathode :- Number(cathode, heightCathode);
    var nxV :- Nx(d);
    var encX := c.cryoX + 2.0 * (sx + foam) + ceiling;
    var encY := c.cryoY + 2.0 * (sy + foam) + 2.0 * wall;
    var encZ := c.cryoZ + 2.0 * (sz + foam) + 2.0 * wall;
    var originX := encX / 2.0 - sx - foam - c.steel - c.xBuffer - d.drift / 2.0
                   - (if EqualsNum(nxV, 2.0) then hCathode / 2.0 else hCathode);
    Ok(det[FracMassOfAir := Num(1.0 - steelFrac)]
          [DetEncX := Num(encX)][DetEncY := Num(encY)][DetEncZ := Num(encZ)]
          [posCryoInDetEnc_x := Num(-encX / 2.0 + sx + foam + c.cryoX / 2.0)]
          [OriginXSet := Num(originX)]
          [OriginYSet := Num(encY / 2.0 - wall - sy - foam - c.steel - c.yBuffer - d.widthActive / 2.0)]
          [OriginZSet := Num(encZ / 2.0 - wall - sz - foam - c.steel - c.zBuffer - d.borderCRM)])
  }

  /** The field-cage parameters; a zero shaper separation divides by zero. */
  function DeriveFieldCage(d: TpcDims, fc: map<Key, Value>): (r: Result<map<Key, Value>>)
    ensures r.Ok? ==> fc.Keys <= r.value.Keys
  {
    var outer :- Number(fc, FieldShaperOuterRadius);
    var tor :- Number(fc, FieldShaperTorRad);
    var sep :- Number(fc, FieldShaperSeparation);
    if sep == 0.0 then Err(ZeroDivisionError)
    else
      var shaperLength := d.lengthActive + 2.0 * outer + 2.0 * tor;
      var shaperWidth := d.widthActive + 2.0 * outer + 2.0 * tor;
      var nShapers := d.drift / sep - 1.0;
      Ok(fc[FieldShaperLongTubeLength := Num(d.lengthActive)][FieldShaperShortTubeLength := Num(d.widthActive)]
           [FieldShaperLength := Num(shaperLength)][FieldShaperWidth := Num(shaperWidth)]
           [NFieldShapers := Num(nShapers)][FieldCageSizeX := Num(sep * nShapers + 2.0)]
           [FieldCageSizeY := Num(shaperWidth + 2.0)][FieldCageSizeZ := Num(shaperLength + 2.0)])
  }

  /** The cathode spans two CRMs (with their borders) each way. */
  function DeriveCathode(d: TpcDims, cathode: map<Key, Value>): (r: map<Key, Value>)
    ensures cathode.Keys <= r.Keys
  {
    cathode[widthCathode := Num(2.0 * (d.widthCRM + d.borderCRP))]
           [lengthCathode := Num(2.0 * (d.lengthCRM + d.borderCRP))]
  }

  /** The bottom X-ARAPUCA positions: entries 0 and 1 from the cathode
      geometry, entries 2 and 3 their mirror images. */
  function DeriveArapuca(cathode: map<Key, Value>, ara: map<Key, Value>): (r: Result<map<Key, Value>>)
    ensures r.Ok? ==> ara.Keys <= r.value.Keys
  {
    var wVoid :- Number(cathode, widthCathodeVoid);
    var border :- Number(cathode, CathodeBorder);
    var gap :- Number(ara, GapPD);
    var outX :- Number(ara, ArapucaOut_x);
    var lVoid :- Number(cathode, lengthCathodeVoid);
    var y0 := -2.0 * wVoid - 2.0 * border + gap + 0.5 * outX;
    var z0 := -(0.5 * lVoid + border);
    var y1 := border + gap + 0.5 * outX;
    var z1 := -1.5 * lVoid - 2.0 * border;
    Ok(ara[list_posy_bot := List([y0, y1, -y1, -y0])][list_posz_bot := List([z0, z1, -z1, -z0])])
  }

  /** The sections after the derived parameters are computed, or the first
      failure a read or a division meets. */
  function Derive(s: Sections): (r: Result<Sections>)
    ensures r.Ok? ==> r.value.world == s.world
    ensures r.Ok? ==> s.tpc.Keys <= r.value.tpc.Keys && s.cryostat.Keys <= r.value.cryostat.Keys &&
                      s.detenc.Keys <= r.value.detenc.Keys && s.fieldcage.Keys <= r.value.fieldcage.Keys &&
                      s.cathode.Keys <= r.value.cathode.Keys && s.arapuca.Keys <= r.value.arapuca.Keys
  {
    var (tpc, d) :- DeriveTpc(s.world, s.tpc);
    var (cry, c) :- DeriveCryostat(s.world, d, s.cryostat, s.cathode);
    var det :- DeriveEnclosure(d, c, s.detenc, s.cathode);
    var fc :- DeriveFieldCage(d, s.fieldcage);
    var cat := DeriveCathode(d, s.cathode);
    var ara :- DeriveArapuca(cat, s.arapuca);
    Ok(Sections(s.world, tpc, cry, det, fc, cat, ara))
  }

  /** SetDerived: nothing once the flag is set; otherwise the derived
      sections, copied into the global map, and the flag set. */
  function SetDerivedState(st: Store): Result<Store>
  {
    if st.hasDerived then Ok(st)
    else
      var s :- Derive(st.sections);
      Ok(Store(st.params + DerivedCopy(s), s, true))
  }

  // ---------------------------------------------------------------------
  // Properties of SetDerived

  /** SetDerived is idempotent: after it succeeds the flag is set, and a
      second call changes nothing. */
  lemma SetDerivedIdempotent(st: Store)
    requires SetDerivedState(st).Ok?
    ensures SetDerivedState(st).value.hasDerived
    ensures SetDerivedState(SetDerivedState(st).value) == SetDerivedState(st)
  {
  }

  /** With the flag set, SetDerived neither fails nor changes anything. */
  lemma SetDerivedOnce(st: Store)
    requires st.hasDerived
    ensures SetDerivedState(st) == Ok(st)
  {
  }

  /** Workspaces 1..7 each fix the CRM counts; any other workspace fixes none. */
  lemma WorkspaceTable(w: real)
    ensures WorkspaceCounts(Num(w)).Some? <==> w in {1.0, 2.0, 3.0, 4.0, 5.0, 6.0, 7.0}
    ensures w == 1.0 ==> WorkspaceCounts(Num(w)) == Some((2.0, 2.0, 1.0))
    ensures w == 2.0 ==> WorkspaceCounts(Num(w)) == Some((4.0, 4.0, 1.0))
    ensures w == 3.0 ==> WorkspaceCounts(Num(w)) == Some((8.0, 6.0, 1.0))
    ensures w == 4.0 ==> WorkspaceCounts(Num(w)) == Some((8.0, 14.0, 1.0))
    ensures w == 5.0 ==> WorkspaceCounts(Num(w)) == Some((8.0, 40.0, 1.0))
    ensures w == 6.0 ==> WorkspaceCounts(Num(w)) == Some((8.0, 6.0, 2.0))
    ensures w == 7.0 ==> WorkspaceCounts(Num(w)) == Some((8.0, 14.0, 2.0))
  {
  }

  /** The view count and PCB length the TPC section gets. */
  lemma TpcSectionViews(tpc: map<Key, Value>, d: TpcDims)
    ensures var t := TpcSection(tpc, d);
      t[nViews] == Num(d.views as real) && t[lengthPCBActive] == Num(d.lengthPCB)
  {
  }

  /** The CRM counts the TPC section gets: the workspace's, or the
      configured ones. */
  lemma TpcSectionCounts(tpc: map<Key, Value>, d: TpcDims)
    ensures var t := TpcSection(tpc, d);
      (d.counts.Some? ==>
         t[nCRM_y] == Num(d.counts.value.0) && t[nCRM_z] == Num(d.counts.value.1) &&
         t[nCRM_x] == Num(d.counts.value.2)) &&
      (d.counts.None? ==>
         (forall k :: k in {nCRM_y, nCRM_z, nCRM_x} ==> (k in t <==> k in tpc) && (k in tpc ==> t[k] == tpc[k])))
  {
  }

  /** The counts SetDerived takes from the workspace, and the configured
      counts it reads when the workspace fixes none. */
  lemma ReadsCounts(world: map<Key, Value>, tpc: map<Key, Value>)
    requires TpcReads(world, tpc).Ok?
    ensures workspace in world
    ensures TpcReads(world, tpc).value.counts == WorkspaceCounts(world[workspace])
    ensures WorkspaceCounts(world[workspace]).None? ==> nCRM_y in tpc && nCRM_z in tpc
  {
  }

  /** The derived TPC section holds the workspace's CRM counts, or, when
      the workspace fixes none, the configured ones. */
  lemma DerivedCounts(world: map<Key, Value>, tpc: map<Key, Value>)
    requires DeriveTpc(world, tpc).Ok?
    ensures workspace in world
    ensures var t := DeriveTpc(world, tpc).value.0;
      var c := WorkspaceCounts(world[workspace]);
      (c.Some? ==> nCRM_y in t && nCRM_z in t && nCRM_x in t &&
                   t[nCRM_y] == Num(c.value.0) && t[nCRM_z] == Num(c.value.1) && t[nCRM_x] == Num(c.value.2)) &&
      (c.None? ==> forall k :: k in {nCRM_y, nCRM_z, nCRM_x} && k in tpc ==> t[k] == tpc[k]) &&
      (c.None? ==> nCRM_y in tpc && nCRM_z in tpc)
  {
    var d := TpcReads(world, tpc).value;
    ReadsCounts(world, tpc);
    TpcSectionCounts(tpc, d);
  }

  /** The number of views and the PCB length as SetDerived reads them. */
  lemma ReadsViews(world: map<Key, Value>, tpc: map<Key, Value>)
    requires TpcReads(world, tpc).Ok?
    ensures nChans in tpc && Length(tpc[nChans]).Ok? && Entry(tpc[nChans], "Col").Ok?
    ensures wirePitchZ in tpc && AsNum(tpc[wirePitchZ]).Ok?
    ensures var d := TpcReads(world, tpc).value;
      d.views == Length(tpc[nChans]).value &&
      d.lengthPCB == AsNum(tpc[wirePitchZ]).value * (Entry(tpc[nChans], "Col").value as real)
  {
  }

  /** nViews is the number of nChans entries, lengthPCBActive the Z pitch
      times the number of collection channels. */
  lemma DerivedViews(world: map<Key, Value>, tpc: map<Key, Value>)
    requires DeriveTpc(world, tpc).Ok?
    ensures nChans in tpc && Length(tpc[nChans]).Ok? && Entry(tpc[nChans], "Col").Ok?
    ensures wirePitchZ in tpc && AsNum(tpc[wirePitchZ]).Ok?
    ensures var t := DeriveTpc(world, tpc).value.0;
      t[nViews] == Num(Length(tpc[nChans]).value as real) &&
      t[lengthPCBActive] == Num(AsNum(tpc[wirePitchZ]).value * (Entry(tpc[nChans], "Col").value as real))
  {
    var d := TpcReads(world, tpc).value;
    ReadsViews(world, tpc);
    TpcSectionViews(tpc, d);
  }

  /** FracMassOfAir is the complement of FracMassOfSteel. */
  lemma DerivedAir(d: TpcDims, c: CryoDims, det: map<Key, Value>, cathode: map<Key, Value>)
    requires DeriveEnclosure(d, c, det, cathode).Ok?
    ensures FracMassOfSteel in det && AsNum(det[FracMassOfSteel]).Ok?
    ensures DeriveEnclosure(d, c, det, cathode).value[FracMassOfAir]
      == Num(1.0 - AsNum(det[FracMassOfSteel]).value)
  {
  }

  /** The bottom X-ARAPUCA lists have four entries, the last two the
      negations of the first two in reverse order. */
  lemma DerivedBottomLists(cathode: map<Key, Value>, ara: map<Key, Value>)
    requires DeriveArapuca(cathode, ara).Ok?
    ensures var a := DeriveArapuca(cathode, ara).value;
      a[list_posy_bot].List? && a[list_posz_bot].List? &&
      |a[list_posy_bot].items| == 4 && |a[list_posz_bot].items| == 4 &&
      a[list_posy_bot].items[2] == -a[list_posy_bot].items[1] &&
      a[list_posy_bot].items[3] == -a[list_posy_bot].items[0] &&
      a[list_posz_bot].items[2] == -a[list_posz_bot].items[1] &&
      a[list_posz_bot].items[3] == -a[list_posz_bot].items[0]
  {
  }

  /** A zero field-shaper separation makes the field-cage derivation fail,
      with a division by zero. */
  lemma DerivedNeedsSeparation(d: TpcDims, fc: map<Key, Value>)
    requires FieldShaperOuterRadius in fc && AsNum(fc[FieldShaperOuterRadius]).Ok?
    requires FieldShaperTorRad in fc && AsNum(fc[FieldShaperTorRad]).Ok?
    requires FieldShaperSeparation in fc
    ensures DeriveFieldCage(d, fc).Err? <==> AsNum(fc[FieldShaperSeparation]) in {Ok(0.0), Err(TypeError("unsupported operand type"))}
  {
  }

  // ---------------------------------------------------------------------
  // The class

  /** The `Params` class: its dictionaries are fields updated in place. */
  class Params {
    var params: map<Key, Value>
    var world: map<Key, Value>
    var tpc: map<Key, Value>
    var cryostat: map<Key, Value>
    var detenc: map<Key, Value>
    var fieldcage: map<Key, Value>
    var cathode: map<Key, Value>
    var arapuca: map<Key, Value>
    var hasDerived: bool

    function State(): Store
      reads this
    {
      Store(params, Sections(world, tpc, cryostat, detenc, fieldcage, cathode, arapuca), hasDerived)
    }

    constructor ()
      ensures State() == Initial()
    {
      world, tpc, cryostat, detenc := DefaultWorld(), DefaultTpc(), DefaultCryostat(), DefaultEnclosure();
      fieldcage, cathode, arapuca := DefaultFieldCage(), DefaultCathode(), DefaultArapuca();
      hasDerived := false;
      params := world + DerivedCopy(Defaults());
    }

    /** Overwrites every field with the given state. */
    method Load(st: Store)
      modifies this
      ensures State() == st
    {
      world, tpc, cryostat, detenc := st.sections.world, st.sections.tpc, st.sections.cryostat,
                                      st.sections.detenc;
      fieldcage, cathode, arapuca := st.sections.fieldcage, st.sections.cathode, st.sections.arapuca;
      params, hasDerived := st.params, st.hasDerived;
    }

    /** The property setters World, TPC, Cryostat, Enclosure, FieldCage,
        Cathode and Arapuca. */
    method SetSection(n: SectionName, input: map<Key, Value>)
      modifies this
      ensures State() == Setter(old(State()), n, input)
    {
      Load(Setter(State(), n, input));
    }

    /** SetDerived: on success the derived sections replace the old ones
        and are copied into the global map, and the flag is set; on failure
        nothing changes. */
    method SetDerived() returns (r: Result<()>)
      modifies this
      ensures SetDerivedState(old(State())).Ok? ==> r == Ok(()) && State() == SetDerivedState(old(State())).value
      ensures SetDerivedState(old(State())).Err? ==>
                r == Err(SetDerivedState(old(State())).failure) && State() == old(State())
    {
      var next := SetDerivedState(State());
      if next.Err? {
        return Err(next.failure);
      }
      Load(next.value);
      r := Ok(());
    }

    /** A builder's `configure` applied to this store. */
    method Configure(n: SectionName, kwds: map<Key, Value>) returns (r: Result<()>)
      modifies this
      ensures ConfigureState(old(State()), n, kwds).Ok? ==>
                r == Ok(()) && State() == ConfigureState(old(State()), n, kwds).value
      ensures ConfigureState(old(State()), n, kwds).Err? ==>
                r == Err(ConfigureState(old(State()), n, kwds).failure) && State() == old(State())
    {
      if !(kwds.Keys <= State().sections.Get(n).Keys) {
        return Err(ValueError("Unknown parameter in"));
      }
      SetSection(n, kwds);
      r := Ok(());
    }

    method Get(key: Key) returns (r: Result<Value>)
      ensures r == Lookup(State(), key)
    {
      if key !in params {
        return Err(SystemExit(1));
      }
      r := Ok(params[key]);
    }
  }
}
