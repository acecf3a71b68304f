/** The FD-VD cathode grid (dunefdvd/CathodeGrid.py): a 4 x 4 grid of voids
    cut out of the cathode block, one boolean subtraction per void, built by
    a recursion that threads the accumulated solid through 16 steps. */
module CathodeGrid {
  import opened Wrappers
  import opened Strings
  import opened Placements
  import opened Shapes
  import opened ParamStore

  /** The parameters the grid reads from the store (cm). */
  datatype GridDims = GridDims(height: real, width: real, length: real,
                               widthVoid: real, lengthVoid: real, border: real)

  /** Python's `(n <= 2)` used as a number. */
  function LowerHalf(n: int): real
  {
    if n <= 2 then 1.0 else 0.0
  }

  /** The y of the void in grid row ny. */
  function VoidY(d: GridDims, ny: int): real
  {
    (2.5 - ny as real) * d.widthVoid + (2.0 - ny as real + LowerHalf(ny)) * d.border
  }

  /** The z of the void in grid column nz. */
  function VoidZ(d: GridDims, nz: int): real
  {
    (2.5 - nz as real) * d.lengthVoid + (2.0 - nz as real + LowerHalf(nz)) * d.border
  }

  /** The step number of cell (ny, nz): 1 for (4, 4), 16 for (1, 1). */
  function StepIndex(ny: int, nz: int): int
  {
    (4 - ny) * 4 + (5 - nz)
  }

  /** The name of the solid made at cell (ny, nz). */
  function StepName(ny: int, nz: int): string
    requires 1 <= ny <= 4 && 1 <= nz <= 4
  {
    if ny == 1 && nz == 1 then "CathodeGrid" else "Cathode" + NatToString(StepIndex(ny, nz))
  }

  function PosName(ny: int, nz: int): string
    requires 1 <= ny <= 4 && 1 <= nz <= 4
  {
    "posCathodeSub" + NatToString(StepIndex(ny, nz))
  }

  /** The subtraction made at cell (ny, nz), cutting the void out of `acc`. */
  function Cut(d: GridDims, acc: Shape, cvoid: Shape, ny: int, nz: int): Shape
    requires 1 <= ny <= 4 && 1 <= nz <= 4
  {
    Boolean(StepName(ny, nz), Subtraction, acc, cvoid, PosName(ny, nz), Vec3(0.0, VoidY(d, ny), VoidZ(d, nz)), NoRot)
  }

  /** `constructGrid`'s recursion, with the cut it makes at a cell given
      by `cut`: cut at (ny, nz), then go on with the next column, or with
      the last column of the row below after column 1, until cell (1, 1). */
  function Walk(cut: (Shape, int, int) -> Shape, acc: Shape, ny: int, nz: int): (r: Shape)
    requires 1 <= ny <= 4 && 1 <= nz <= 4
    ensures Stacks(cut) ==> r.Boolean? && r == cut(r.first, 1, 1)
    decreases ny, nz
  {
    var c := cut(acc, ny, nz);
    if ny == 1 && nz == 1 then c
    else if nz == 1 then Walk(cut, c, ny - 1, 4)
    else Walk(cut, c, ny, nz - 1)
  }

  /** The subtraction `constructGrid` makes at a cell of the grid. */
  function CutOf(d: GridDims, cvoid: Shape): (Shape, int, int) -> Shape
  {
    (acc: Shape, y: int, z: int) => if 1 <= y <= 4 && 1 <= z <= 4 then Cut(d, acc, cvoid, y, z) else acc
  }

  /** `constructGrid(geom, cblock, cvoid, ny, nz)`: a chain of subtractions
      of the void on `cblock`, one per remaining step, the last named
      CathodeGrid. */
  function ConstructGrid(d: GridDims, cblock: Shape, cvoid: Shape, ny: int, nz: int): (r: Shape)
    requires 1 <= ny <= 4 && 1 <= nz <= 4
    ensures r.Boolean? && r.op == Subtraction && r.second == cvoid && r.name == "CathodeGrid"
    ensures Base(r) == Base(cblock)
    ensures |Layers(r)| == |Layers(cblock)| + 17 - StepIndex(ny, nz)
  {
    CutStacks(d, cvoid);
    WalkLayers(CutOf(d, cvoid), cblock, ny, nz);
    Walk(CutOf(d, cvoid), cblock, ny, nz)
  }

  /** A cut at a cell of the grid puts one boolean solid on top of what it is given. */
  ghost predicate Stacks(cut: (Shape, int, int) -> Shape)
  {
    forall acc, y, z :: 1 <= y <= 4 && 1 <= z <= 4 ==> cut(acc, y, z).Boolean? && cut(acc, y, z).first == acc
  }

  /** Entry k of layers l is the cut of cell (y, z) made on the entry below it. */
  ghost predicate CutAt(cut: (Shape, int, int) -> Shape, l: seq<Shape>, k: int, y: int, z: int)
  {
    0 <= k < |l| && l[k].Boolean? && l[k] == cut(l[k].first, y, z)
  }

  /** The walk adds one layer per remaining step on top of `acc`'s layers
      and keeps its base. */
  lemma {:induction false} WalkLayers(cut: (Shape, int, int) -> Shape, acc: Shape, ny: int, nz: int)
    requires 1 <= ny <= 4 && 1 <= nz <= 4 && Stacks(cut)
    ensures Layers(acc) <= Layers(Walk(cut, acc, ny, nz)) && Base(Walk(cut, acc, ny, nz)) == Base(acc)
    ensures |Layers(Walk(cut, acc, ny, nz))| == |Layers(acc)| + 17 - StepIndex(ny, nz)
    decreases ny, nz
  {
    var c := cut(acc, ny, nz);
    OnTop(c);
    if !(ny == 1 && nz == 1) {
      var ny', nz' := if nz == 1 then ny - 1 else ny, if nz == 1 then 4 else nz - 1;
      var w := Walk(cut, c, ny', nz');
      assert Walk(cut, acc, ny, nz) == w;
      WalkLayers(cut, c, ny', nz');
      assert Layers(acc) <= Layers(c) <= Layers(w);
    }
  }

  /** The walk visits the cells in step order: the layer m places above
      `acc`'s own is the cut of the cell m steps after (ny, nz). */
  lemma {:induction false} WalkCell(cut: (Shape, int, int) -> Shape, acc: Shape, ny: int, nz: int, y: int, z: int)
    requires 1 <= ny <= 4 && 1 <= nz <= 4 && Stacks(cut)
    requires 1 <= y <= 4 && 1 <= z <= 4 && StepIndex(y, z) >= StepIndex(ny, nz)
    ensures CutAt(cut, Layers(Walk(cut, acc, ny, nz)), |Layers(acc)| + StepIndex(y, z) - StepIndex(ny, nz), y, z)
    decreases ny, nz
  {
    var c := cut(acc, ny, nz);
    var w := Walk(cut, acc, ny, nz);
    OnTop(c);
    if StepIndex(y, z) == StepIndex(ny, nz) {
      assert y == ny && z == nz;
      if !(ny == 1 && nz == 1) {
        var ny', nz' := if nz == 1 then ny - 1 else ny, if nz == 1 then 4 else nz - 1;
        assert w == Walk(cut, c, ny', nz');
        WalkLayers(cut, c, ny', nz');
        assert Layers(c) <= Layers(w);
      }
      assert Layers(w)[|Layers(acc)|] == c;
    } else {
      assert !(ny == 1 && nz == 1);
      var ny', nz' := if nz == 1 then ny - 1 else ny, if nz == 1 then 4 else nz - 1;
      assert w == Walk(cut, c, ny', nz');
      assert StepIndex(ny', nz') == StepIndex(ny, nz) + 1;
      WalkCell(cut, c, ny', nz', y, z);
    }
  }

  /** A grid layer is the cut of cell (y, z) made on the layer below it. */
  ghost predicate IsCut(d: GridDims, cvoid: Shape, y: int, z: int, s: Shape)
    requires 1 <= y <= 4 && 1 <= z <= 4
  {
    s.Boolean? && s == Cut(d, s.first, cvoid, y, z)
  }

  /** The full grid from (4, 4): 16 layers on the block, layer k the cut of
      the cell with step number k + 1. */
  lemma FullGrid(d: GridDims, cblock: Shape, cvoid: Shape)
    requires !cblock.Boolean?
    ensures |Layers(ConstructGrid(d, cblock, cvoid, 4, 4))| == 16
    ensures forall y, z :: 1 <= y <= 4 && 1 <= z <= 4 ==>
      1 <= StepIndex(y, z) <= 16 &&
      IsCut(d, cvoid, y, z, Layers(ConstructGrid(d, cblock, cvoid, 4, 4))[StepIndex(y, z) - 1])
  {
    CutStacks(d, cvoid);
    WalkLayers(CutOf(d, cvoid), cblock, 4, 4);
    forall y, z | 1 <= y <= 4 && 1 <= z <= 4
      ensures 1 <= StepIndex(y, z) <= 16 && IsCut(d, cvoid, y, z, Layers(ConstructGrid(d, cblock, cvoid, 4, 4))[StepIndex(y, z) - 1])
    {
      GridCell(d, cblock, cvoid, y, z);
    }
  }

  lemma GridCell(d: GridDims, cblock: Shape, cvoid: Shape, y: nat, z: nat)
    requires !cblock.Boolean? && 1 <= y <= 4 && 1 <= z <= 4
    ensures var l := Layers(ConstructGrid(d, cblock, cvoid, 4, 4));
            1 <= StepIndex(y, z) <= 16 && StepIndex(y, z) - 1 < |l| && IsCut(d, cvoid, y, z, l[StepIndex(y, z) - 1])
  {
    var cut := CutOf(d, cvoid);
    CutStacks(d, cvoid);
    WalkCell(cut, cblock, 4, 4, y, z);
    assert CutAt(cut, Layers(ConstructGrid(d, cblock, cvoid, 4, 4)), StepIndex(y, z) - 1, y, z);
  }

  /** The step numbers 1..16 each name one cell. */
  lemma StepIndexInjective(y: int, z: int, y': int, z': int)
    requires 1 <= y <= 4 && 1 <= z <= 4 && 1 <= y' <= 4 && 1 <= z' <= 4
    requires StepIndex(y, z) == StepIndex(y', z')
    ensures y == y' && z == z'
  {
  }

  lemma CutStacks(d: GridDims, cvoid: Shape)
    ensures Stacks(CutOf(d, cvoid))
  {
  }

  /** Only the last step is named CathodeGrid; the others are Cathode
      followed by their step number, so no two steps share a name. */
  lemma StepNamesDistinct(y: int, z: int, y': int, z': int)
    requires 1 <= y <= 4 && 1 <= z <= 4 && 1 <= y' <= 4 && 1 <= z' <= 4
    requires StepName(y, z) == StepName(y', z')
    ensures y == y' && z == z'
  {
    if y == 1 && z == 1 {
      GridNotNumbered(StepIndex(y', z'));
    } else if y' == 1 && z' == 1 {
      GridNotNumbered(StepIndex(y, z));
    } else {
      PrefixedInjective("Cathode", StepIndex(y, z), StepIndex(y', z'));
    }
  }

  /** "CathodeGrid" is not "Cathode" followed by a number: its eighth
      character is not a digit. */
  lemma GridNotNumbered(n: nat)
    ensures "CathodeGrid" != "Cathode" + NatToString(n)
  {
    NatToStringDigits(n);
    assert ("Cathode" + NatToString(n))[7] == NatToString(n)[0];
  }

  /** The voids sit symmetrically about the cathode's centre in y and in z. */
  lemma VoidsSymmetric(d: GridDims, n: int)
    requires 1 <= n <= 4
    ensures VoidY(d, 5 - n) == -VoidY(d, n)
    ensures VoidZ(d, 5 - n) == -VoidZ(d, n)
  {
    if n == 1 {
    } else if n == 2 {
    } else if n == 3 {
    } else {
    }
  }

  /** Neighbouring voids in a row are one void width and one border apart,
      with a double border at the centre line. */
  lemma VoidSpacing(d: GridDims, n: int)
    requires 1 <= n <= 3
    ensures VoidY(d, n) - VoidY(d, n + 1) == d.widthVoid + (if n == 2 then 2.0 else 1.0) * d.border
    ensures VoidZ(d, n) - VoidZ(d, n + 1) == d.lengthVoid + (if n == 2 then 2.0 else 1.0) * d.border
  {
    if n == 1 {
    } else if n == 2 {
    } else {
    }
  }

  /** The block and the void solid `construct` makes before the grid. */
  function BlockBox(d: GridDims): Shape
  {
    Box("CathodeBlock", 0.5 * d.height, 0.5 * d.width, 0.5 * d.length)
  }

  function VoidBox(d: GridDims): Shape
  {
    Box("CathodeVoid", 0.5 * d.height + 0.5, 0.5 * d.widthVoid, 0.5 * d.lengthVoid)
  }

  /** The parameters `construct` reads, each a `get` that exits on a missing key. */
  function ReadDims(st: Store): Result<GridDims>
  {
    var height :- LookupNum(st, heightCathode);
    var width :- LookupNum(st, widthCathode);
    var length :- LookupNum(st, lengthCathode);
    var widthVoid :- LookupNum(st, widthCathodeVoid);
    var lengthVoid :- LookupNum(st, lengthCathodeVoid);
    var border :- LookupNum(st, CathodeBorder);
    Ok(GridDims(height, width, length, widthVoid, lengthVoid, border))
  }

  /** The volume `construct` adds once the parameters are read: the G10
      volume volCathodeGrid whose shape is the 16-step grid cut out of the
      cathode block. */
  function GridVolume(d: GridDims): (lv: Volume)
    ensures lv.name == "volCathodeGrid" && lv.material == "G10" && lv.params == []
    ensures Base(lv.shape) == BlockBox(d) && |Layers(lv.shape)| == 16
  {
    var grid := ConstructGrid(d, BlockBox(d), VoidBox(d), 4, 4);
    GridVolumeName(grid.name);
    Volume("vol" + grid.name, "G10", grid, [])
  }

  lemma GridVolumeName(s: string)
    requires s == "CathodeGrid"
    ensures "vol" + s == "volCathodeGrid"
  {
  }

  /** `construct` after SetDerived: the grid volume, or the exit of the
      first `get` whose key is missing. */
  function Construct(st: Store): (r: Result<Volume>)
    ensures heightCathode !in st.params ==> r == Err(SystemExit(1))
    ensures r.Ok? ==> r.value.name == "volCathodeGrid" && |Layers(r.value.shape)| == 16
  {
    var d :- ReadDims(st);
    Ok(GridVolume(d))
  }

  /** `configure`: only keywords of the Cathode section, which they replace. */
  function Configure(st: Store, kwds: map<Key, Value>): (r: Result<Store>)
    ensures r.Err? <==> !(kwds.Keys <= st.sections.cathode.Keys)
    ensures r.Ok? ==> r.value.sections.cathode.Keys == st.sections.cathode.Keys &&
                      forall k :: k in kwds ==> r.value.sections.cathode[k] == kwds[k]
  {
    var r := ConfigureState(st, Cathode, kwds);
    if r.Ok? then ConfigureKeepsKeys(st, Cathode, kwds); r else r
  }

  /** The builder's `construct` on the global store: SetDerived (nothing
      else happens if it fails), then the grid volume. */
  method Build(p: Params) returns (r: Result<Volume>)
    modifies p
    ensures SetDerivedState(old(p.State())).Err? ==>
              r == Err(SetDerivedState(old(p.State())).failure) && p.State() == old(p.State())
    ensures SetDerivedState(old(p.State())).Ok? ==>
              p.State() == SetDerivedState(old(p.State())).value && r == Construct(p.State())
  {
    var derived := p.SetDerived();
    if derived.Err? {
      return Err(derived.failure);
    }
    r := Construct(p.State());
  }
}
