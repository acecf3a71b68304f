/** larfd/CalculateBeamVolume.py: a table of (volume name, volume in m^3)
    rows is sorted into the steel beams of the cryostat support and the
    insulation layers, and the beam volumes and counts are accumulated. */
module BeamVolume {
  import opened Strings

  datatype Row = Row(name: string, volume: real)

  /** Which branch of the if/elif chain a row takes. */
  datatype Kind = FloorHole | Floor | Small | Main | Membrane | Layer2 | Layer3 | Warmskin | Ignored

  /** The if/elif chain: the first name test that succeeds decides. */
  function Classify(name: string): (k: Kind)
    ensures k == FloorHole <==> Contains(name, "BeamFloor") && Contains(name, "hole")
    ensures k == Floor <==> Contains(name, "BeamFloor") && !Contains(name, "hole")
    ensures k == Small <==> !Contains(name, "BeamFloor") && Contains(name, "BeamSmall")
    ensures k == Main <==> !Contains(name, "BeamFloor") && !Contains(name, "BeamSmall") && Contains(name, "Beam")
    ensures k == Membrane <==> !Contains(name, "Beam") && Contains(name, "membrane")
    ensures k == Layer2 <==> !Contains(name, "Beam") && !Contains(name, "membrane") && Contains(name, "layer2")
    ensures k == Layer3 <==> !Contains(name, "Beam") && !Contains(name, "membrane") && !Contains(name, "layer2") &&
                             Contains(name, "layer3")
    ensures k == Warmskin <==> !Contains(name, "Beam") && !Contains(name, "membrane") && !Contains(name, "layer2") &&
                               !Contains(name, "layer3") && Contains(name, "warmskin")
  {
    BeamInLongerName(name, "BeamFloor");
    BeamInLongerName(name, "BeamSmall");
    if Contains(name, "BeamFloor") then (if Contains(name, "hole") then FloorHole else Floor)
    else if Contains(name, "BeamSmall") then Small
    else if Contains(name, "Beam") then Main
    else if Contains(name, "membrane") then Membrane
    else if Contains(name, "layer2") then Layer2
    else if Contains(name, "layer3") then Layer3
    else if Contains(name, "warmskin") then Warmskin
    else Ignored
  }

  /** A name containing a word that starts with "Beam" ("BeamFloor",
      "BeamSmall") contains "Beam". */
  lemma BeamInLongerName(name: string, word: string)
    requires |word| >= 4 && word[..4] == "Beam"
    ensures Contains(name, word) ==> Contains(name, "Beam")
  {
    if Contains(name, word) {
      var i :| 0 <= i <= |name| && OccursAt(name, word, i);
      assert name[i..i + 4] == name[i..i + |word|][..4];
      assert OccursAt(name, "Beam", i);
    }
  }

  /** The script's accumulators (volumes in m^3). */
  datatype Totals = Totals(mainVolume: real, floorVolume: real, smallVolume: real,
                           mainCount: nat, floorCount: nat, smallCount: nat,
                           membrane: real, layer2: real, layer3: real, warmskin: real)

  const Zero := Totals(0.0, 0.0, 0.0, 0, 0, 0, 0.0, 0.0, 0.0, 0.0)

  /** One iteration of the loop over the rows. */
  function Step(t: Totals, r: Row): Totals
  {
    match Classify(r.name)
    case FloorHole => t.(floorVolume := t.floorVolume - r.volume)
    case Floor => t.(floorVolume := t.floorVolume + r.volume, floorCount := t.floorCount + 1)
    case Small => t.(smallVolume := t.smallVolume + r.volume, smallCount := t.smallCount + 1)
    case Main => t.(mainVolume := t.mainVolume + r.volume, mainCount := t.mainCount + 1)
    case Membrane => t.(membrane := r.volume)
    case Layer2 => t.(layer2 := r.volume)
    case Layer3 => t.(layer3 := r.volume)
    case Warmskin => t.(warmskin := r.volume)
    case Ignored => t
  }

  /** The accumulators after the rows, processed first to last. */
  function Tally(rows: seq<Row>): Totals
  {
    if rows == [] then Zero else Step(Tally(rows[..|rows| - 1]), rows[|rows| - 1])
  }

  /** The loop of the script. */
  method Accumulate(rows: seq<Row>) returns (t: Totals)
    ensures t == Tally(rows)
  {
    t := Zero;
    var i := 0;
    while i < |rows|
      invariant 0 <= i <= |rows|
      invariant t == Tally(rows[..i])
    {
      assert rows[..i + 1][..i] == rows[..i];
      var row := rows[i];
      match Classify(row.name) {
      case FloorHole =>
        t := t.(floorVolume := t.floorVolume - row.volume);
      case Floor =>
        t := t.(floorVolume := t.floorVolume + row.volume, floorCount := t.floorCount + 1);
      case Small =>
        t := t.(smallVolume := t.smallVolume + row.volume, smallCount := t.smallCount + 1);
      case Main =>
        t := t.(mainVolume := t.mainVolume + row.volume, mainCount := t.mainCount + 1);
      case Membrane =>
        t := t.(membrane := row.volume);
      case Layer2 =>
        t := t.(layer2 := row.volume);
      case Layer3 =>
        t := t.(layer3 := row.volume);
      case Warmskin =>
        t := t.(warmskin := row.volume);
      case Ignored =>
      }
      i := i + 1;
    }
    assert rows[..i] == rows;
  }

  // ---------------------------------------------------------------------------
  // What the accumulators hold

  /** How many rows are of kind `k`. */
  function CountKind(rows: seq<Row>, k: Kind): nat
  {
    if rows == [] then 0
    else CountKind(rows[..|rows| - 1], k) + (if Classify(rows[|rows| - 1].name) == k then 1 else 0)
  }

  /** The summed volume of the rows of kind `k`. */
  function SumKind(rows: seq<Row>, k: Kind): real
  {
    if rows == [] then 0.0
    else SumKind(rows[..|rows| - 1], k) + (if Classify(rows[|rows| - 1].name) == k then rows[|rows| - 1].volume else 0.0)
  }

  /** Each beam count is the number of rows of its kind ("hole" rows are not
      counted), each beam volume the sum of its rows, with the floor holes
      subtracted from the floor beams. */
  lemma {:induction false} TallyBeams(rows: seq<Row>)
    ensures Tally(rows).floorCount == CountKind(rows, Floor)
    ensures Tally(rows).smallCount == CountKind(rows, Small)
    ensures Tally(rows).mainCount == CountKind(rows, Main)
    ensures Tally(rows).floorVolume == SumKind(rows, Floor) - SumKind(rows, FloorHole)
    ensures Tally(rows).smallVolume == SumKind(rows, Small)
    ensures Tally(rows).mainVolume == SumKind(rows, Main)
  {
    if rows != [] {
      TallyBeams(rows[..|rows| - 1]);
    }
  }

  /** The position of the last row of kind `k`, or -1 when there is none. */
  function LastOfKind(rows: seq<Row>, k: Kind): (r: int)
    ensures -1 <= r < |rows| && (r >= 0 ==> Classify(rows[r].name) == k)
    ensures forall j :: r < j < |rows| ==> Classify(rows[j].name) != k
  {
    if rows == [] then -1
    else if Classify(rows[|rows| - 1].name) == k then |rows| - 1
    else
      var r := LastOfKind(rows[..|rows| - 1], k);
      assert forall j :: 0 <= j < |rows| - 1 ==> rows[..|rows| - 1][j] == rows[j];
      r
  }

  /** The accumulator the script keeps for a layer kind. */
  function Layer(t: Totals, k: Kind): real
    requires k in {Membrane, Layer2, Layer3, Warmskin}
  {
    match k
    case Membrane => t.membrane
    case Layer2 => t.layer2
    case Layer3 => t.layer3
    case _ => t.warmskin
  }

  /** A layer value is the volume of the last row of that kind (a later row
      overwrites an earlier one), or 0 when no row has it. */
  lemma {:induction false} TallyLayers(rows: seq<Row>, k: Kind)
    requires k in {Membrane, Layer2, Layer3, Warmskin}
    ensures Layer(Tally(rows), k) == if LastOfKind(rows, k) < 0 then 0.0 else rows[LastOfKind(rows, k)].volume
  {
    if rows != [] {
      var init := rows[..|rows| - 1];
      TallyLayers(init, k);
      var last := LastOfKind(init, k);
      if last >= 0 {
        assert rows[last] == init[last];
      }
    }
  }

  /** Rows that match no test leave every accumulator unchanged. */
  lemma IgnoredRow(rows: seq<Row>, r: Row)
    requires Classify(r.name) == Ignored
    ensures Tally(rows + [r]) == Tally(rows)
  {
    assert (rows + [r])[..|rows|] == rows;
  }

  /** The printed total beam volume (the script multiplies it by the steel
      density, 7.8 t/m^3, for the total mass). */
  function TotalVolume(t: Totals): real
  {
    t.mainVolume + t.floorVolume + t.smallVolume
  }

  /** The total is the volume of every beam row minus the floor holes. */
  lemma TotalVolumeOfRows(rows: seq<Row>)
    ensures TotalVolume(Tally(rows)) ==
            SumKind(rows, Main) + SumKind(rows, Floor) + SumKind(rows, Small) - SumKind(rows, FloorHole)
  {
    TallyBeams(rows);
  }

  /** Counting: the three beam counts together never exceed the rows. */
  lemma {:induction false} BeamCountsBounded(rows: seq<Row>)
    ensures Tally(rows).mainCount + Tally(rows).floorCount + Tally(rows).smallCount <= |rows|
  {
    if rows != [] {
      BeamCountsBounded(rows[..|rows| - 1]);
    }
  }
}
