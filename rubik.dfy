/** The example builder of gegede-example/ggdex/__init__.py: a "Rubik's
    cube" of 26 blocks on the 3x3x3 grid around the origin, the blocks
    taken from three sub-builders (corner, edge, centre). */
module Rubik {
  import opened Wrappers
  import opened Strings
  import opened Placements

  // ---------------------------------------------------------------------------
  // The grid

  /** The loop variable `trip = (ii, jj, kk)`. */
  datatype Trip = Trip(i: int, j: int, k: int)

  const Centre3 := Trip(0, 0, 0)

  /** A grid cell: each coordinate is -1, 0 or 1. */
  predicate InCube(t: Trip)
  {
    -1 <= t.i <= 1 && -1 <= t.j <= 1 && -1 <= t.k <= 1
  }

  /** The 26 cells that receive a block: all but the centre of the cube. */
  predicate Outer(t: Trip)
  {
    InCube(t) && t != Centre3
  }

  function Abs(n: int): nat
  {
    if n < 0 then -n else n
  }

  /** `which`: 0 for a face centre, 1 for an edge, 2 for a corner. */
  function Which(t: Trip): int
  {
    Abs(t.i) + Abs(t.j) + Abs(t.k) - 1
  }

  /** '%d%d%d' % trip. */
  function TripName(t: Trip): string
  {
    IntToString(t.i) + IntToString(t.j) + IntToString(t.k)
  }

  /** ii * step for a grid coordinate ii in [-1, 0, 1]. */
  function Coord(d: int, step: real): real
    requires -1 <= d <= 1
  {
    if d < 0 then -step else if d == 0 then 0.0 else step
  }

  lemma CoordIsProduct(d: int, step: real)
    requires -1 <= d <= 1
    ensures Coord(d, step) == (d as real) * step
  {
  }

  /** The block placed in cell t of the cube; `rev` is the list of blocks
      after `blocks.reverse()`, i.e. centre, edge, corner. */
  function Block(rev: seq<string>, step: real, t: Trip): Placement
    requires |rev| == 3 && Outer(t)
  {
    Placement("place_" + TripName(t), rev[Which(t)],
              Vec3(Coord(t.i, step), Coord(t.j, step), Coord(t.k, step)), NoRot)
  }

  /** What one pass of the innermost loop appends: nothing at the centre
      (`continue`); the loops never leave the cube. */
  function Cell(rev: seq<string>, step: real, t: Trip): seq<Placement>
    requires |rev| == 3
  {
    if Outer(t) then [Block(rev, step, t)] else []
  }

  /** The placements appended while the loops visit the cells `ts` in turn. */
  function Blocks(rev: seq<string>, step: real, ts: seq<Trip>): seq<Placement>
    requires |rev| == 3
  {
    if ts == [] then [] else Blocks(rev, step, ts[..|ts| - 1]) + Cell(rev, step, ts[|ts| - 1])
  }

  /** The position of cell t in the order the ii, jj, kk loops visit the
      cube: ii slowest, kk fastest. */
  function Rank(t: Trip): int
  {
    9 * (t.i + 1) + 3 * (t.j + 1) + (t.k + 1)
  }

  /** n // 3 by repeated subtraction. */
  function Div3(n: nat): nat
  {
    if n < 3 then 0 else 1 + Div3(n - 3)
  }

  /** n % 3. */
  function Mod3(n: nat): int
  {
    n - 3 * Div3(n)
  }

  lemma {:induction false} Div3Of(q: nat, r: nat)
    requires r < 3
    ensures Div3(3 * q + r) == q
  {
    if q > 0 {
      Div3Of(q - 1, r);
    }
  }

  /** The cell the loops visit n-th: the base-3 digits of n, less one. */
  function NthTrip(n: nat): Trip
  {
    Trip(Div3(Div3(n)) - 1, Mod3(Div3(n)) - 1, Mod3(n) - 1)
  }

  /** The 27 cells in the order the loops visit them. */
  function Visits(): seq<Trip>
  {
    seq(27, (n: int) requires 0 <= n => NthTrip(n))
  }

  /** The placements of the three nested loops, in loop order. */
  function CubePlacements(rev: seq<string>, step: real): seq<Placement>
    requires |rev| == 3
  {
    Blocks(rev, step, Visits())
  }

  lemma {:induction false} Div3Bound(n: nat)
    ensures 3 * Div3(n) <= n < 3 * Div3(n) + 3
  {
    if n >= 3 {
      Div3Bound(n - 3);
    }
  }

  lemma RankOfNth(n: nat)
    requires n < 27
    ensures InCube(NthTrip(n)) && Rank(NthTrip(n)) == n
  {
    Div3Bound(n);
    Div3Bound(Div3(n));
  }

  /** Rank and NthTrip are inverse: the loops visit each cell once. */
  lemma NthOfRank(t: Trip)
    requires InCube(t)
    ensures 0 <= Rank(t) < 27 && NthTrip(Rank(t)) == t
  {
    var q: nat := 3 * (t.i + 1) + (t.j + 1);
    var n: nat := 3 * q + (t.k + 1);
    assert Rank(t) == n;
    Div3Of(q, t.k + 1);
    Div3Of(t.i + 1, t.j + 1);
    assert Div3(n) == q && Div3(q) == t.i + 1;
  }

  // Loop steps.

  lemma SliceAppend<T>(s: seq<T>, lo: int, hi: int)
    requires 0 <= lo <= hi < |s|
    ensures s[lo..hi + 1] == s[lo..hi] + [s[hi]]
  {
  }

  lemma SliceJoin<T>(s: seq<T>, x: int, y: int, z: int)
    requires 0 <= x <= y <= z <= |s|
    ensures s[x..z] == s[x..y] + s[y..z]
  {
  }

  lemma PrefixDrop<T>(s: seq<T>, n: int)
    requires 0 < n <= |s|
    ensures s[..n][..n - 1] == s[..n - 1] && s[..n][n - 1] == s[n - 1]
  {
  }

  lemma BlocksAppend(rev: seq<string>, step: real, ts: seq<Trip>, t: Trip)
    requires |rev| == 3
    ensures Blocks(rev, step, ts + [t]) == Blocks(rev, step, ts) + Cell(rev, step, t)
  {
    assert (ts + [t])[..|ts|] == ts;
  }

  lemma {:induction false} BlocksConcat(rev: seq<string>, step: real, ts: seq<Trip>, us: seq<Trip>)
    requires |rev| == 3
    ensures Blocks(rev, step, ts + us) == Blocks(rev, step, ts) + Blocks(rev, step, us)
    decreases |us|
  {
    if us == [] {
      assert ts + us == ts;
    } else {
      var n := |us| - 1;
      assert (ts + us)[..|ts + us| - 1] == ts + us[..n];
      BlocksConcat(rev, step, ts, us[..n]);
    }
  }

  /** The visits from x to z are those from x to y, then those from y to z. */
  lemma VisitsSplit(rev: seq<string>, step: real, x: int, y: int, z: int)
    requires |rev| == 3 && 0 <= x <= y <= z <= 27
    ensures Blocks(rev, step, Visits()[x..z]) == Blocks(rev, step, Visits()[x..y]) + Blocks(rev, step, Visits()[y..z])
  {
    SliceJoin(Visits(), x, y, z);
    BlocksConcat(rev, step, Visits()[x..y], Visits()[y..z]);
  }

  /** Where column (i, j) starts in the visit order. */
  function ColumnStart(i: int, j: int): int
  {
    9 * (i + 1) + 3 * (j + 1)
  }

  /** Column (i, j) visits its cells in the order of k. */
  lemma VisitsColumnStep(i: int, j: int, k: int)
    requires InCube(Trip(i, j, k))
    ensures 0 <= ColumnStart(i, j) <= ColumnStart(i, j) + (k + 1) < 27
    ensures Visits()[ColumnStart(i, j)..ColumnStart(i, j) + (k + 2)]
         == Visits()[ColumnStart(i, j)..ColumnStart(i, j) + (k + 1)] + [Trip(i, j, k)]
  {
    var t := Trip(i, j, k);
    NthOfRank(t);
    assert Rank(t) == ColumnStart(i, j) + (k + 1);
    SliceAppend(Visits(), ColumnStart(i, j), Rank(t));
  }

  /** One pass of the kk loop appends the cell of (ii, jj, kk). */
  lemma ColumnStep(rev: seq<string>, step: real, i: int, j: int, k: int, before: seq<Placement>, cell: seq<Placement>)
    requires |rev| == 3 && InCube(Trip(i, j, k))
    requires before == Blocks(rev, step, Visits()[ColumnStart(i, j)..ColumnStart(i, j) + (k + 1)])
    requires cell == Cell(rev, step, Trip(i, j, k))
    ensures before + cell == Blocks(rev, step, Visits()[ColumnStart(i, j)..ColumnStart(i, j) + (k + 2)])
  {
    VisitsColumnStep(i, j, k);
    BlocksAppend(rev, step, Visits()[ColumnStart(i, j)..ColumnStart(i, j) + (k + 1)], Trip(i, j, k));
  }

  /** One pass of the jj loop appends the whole column (ii, jj). */
  lemma SliceStep(rev: seq<string>, step: real, i: int, j: int, before: seq<Placement>, column: seq<Placement>)
    requires |rev| == 3 && -1 <= i <= 1 && -1 <= j <= 1
    requires before == Blocks(rev, step, Visits()[9 * (i + 1)..9 * (i + 1) + 3 * (j + 1)])
    requires column == Blocks(rev, step, Visits()[ColumnStart(i, j)..ColumnStart(i, j) + 3])
    ensures before + column == Blocks(rev, step, Visits()[9 * (i + 1)..9 * (i + 1) + 3 * (j + 2)])
  {
    VisitsSplit(rev, step, 9 * (i + 1), 9 * (i + 1) + 3 * (j + 1), 9 * (i + 1) + 3 * (j + 2));
  }

  /** One pass of the ii loop appends the whole slice ii. */
  lemma SlicesStep(rev: seq<string>, step: real, i: int, before: seq<Placement>, slice: seq<Placement>)
    requires |rev| == 3 && -1 <= i <= 1
    requires before == Blocks(rev, step, Visits()[..9 * (i + 1)])
    requires slice == Blocks(rev, step, Visits()[9 * (i + 1)..9 * (i + 1) + 9])
    ensures before + slice == Blocks(rev, step, Visits()[..9 * (i + 2)])
  {
    assert Visits()[..9 * (i + 1)] == Visits()[0..9 * (i + 1)];
    assert Visits()[..9 * (i + 2)] == Visits()[0..9 * (i + 2)];
    VisitsSplit(rev, step, 0, 9 * (i + 1), 9 * (i + 1) + 9);
  }

  // What the loops visit.

  /** How often the centre cell, or a cell outside the cube, is visited. */
  function CentreCount(ts: seq<Trip>): nat
  {
    if ts == [] then 0 else CentreCount(ts[..|ts| - 1]) + (if Outer(ts[|ts| - 1]) then 0 else 1)
  }

  /** The centre is the 14th cell visited, and only it is skipped. */
  lemma {:induction false} CentreCountOfVisits(n: nat)
    requires n <= 27
    ensures CentreCount(Visits()[..n]) == if n > 13 then 1 else 0
  {
    if n > 0 {
      var last := Visits()[n - 1];
      RankOfNth(n - 1);
      NthOfRank(Centre3);
      assert Outer(last) <==> n - 1 != 13;
      PrefixDrop(Visits(), n);
      CentreCountOfVisits(n - 1);
    }
  }

  /** Every outer cell visited contributes its block. */
  lemma {:induction false} BlockVisited(rev: seq<string>, step: real, ts: seq<Trip>, t: Trip)
    requires |rev| == 3 && t in ts && Outer(t)
    ensures Block(rev, step, t) in Blocks(rev, step, ts)
    decreases |ts|
  {
    var front := ts[..|ts| - 1];
    if ts[|ts| - 1] != t {
      assert ts == front + [ts[|ts| - 1]];
      BlockVisited(rev, step, front, t);
    }
  }

  /** Each placement is the block of an outer cell that was visited. */
  lemma {:induction false} BlocksFromVisited(rev: seq<string>, step: real, ts: seq<Trip>, p: Placement)
    requires |rev| == 3 && p in Blocks(rev, step, ts)
    ensures exists t :: t in ts && Outer(t) && p == Block(rev, step, t)
    decreases |ts|
  {
    var front, last := ts[..|ts| - 1], ts[|ts| - 1];
    assert ts == front + [last];
    if p in Blocks(rev, step, front) {
      BlocksFromVisited(rev, step, front, p);
      var t :| t in front && Outer(t) && p == Block(rev, step, t);
      assert t in ts;
    } else {
      assert Outer(last) && p == Block(rev, step, last);
    }
  }

  /** One placement per outer cell visited. */
  lemma {:induction false} BlocksLength(rev: seq<string>, step: real, ts: seq<Trip>)
    requires |rev| == 3
    ensures |Blocks(rev, step, ts)| == |ts| - CentreCount(ts)
    decreases |ts|
  {
    if ts != [] {
      BlocksLength(rev, step, ts[..|ts| - 1]);
    }
  }

  /** The cube: exactly 26 placements, one for each cell of the 3x3x3 grid
      but its centre, and nothing else. */
  lemma CubeCoverage(rev: seq<string>, step: real)
    requires |rev| == 3
    ensures |CubePlacements(rev, step)| == 26
    ensures forall t :: Outer(t) ==> Block(rev, step, t) in CubePlacements(rev, step)
    ensures forall p :: p in CubePlacements(rev, step) ==> exists t :: Outer(t) && p == Block(rev, step, t)
  {
    CentreCountOfVisits(27);
    assert Visits()[..27] == Visits();
    BlocksLength(rev, step, Visits());
    forall t | Outer(t)
      ensures Block(rev, step, t) in CubePlacements(rev, step)
    {
      NthOfRank(t);
      assert Visits()[Rank(t)] == t;
      BlockVisited(rev, step, Visits(), t);
    }
    forall p | p in CubePlacements(rev, step)
      ensures exists t :: Outer(t) && p == Block(rev, step, t)
    {
      BlocksFromVisited(rev, step, Visits(), p);
    }
  }

  /** Reads one '%d' grid coordinate off the front of a name. */
  function ParseCoord(s: string): (int, string)
  {
    if |s| >= 2 && s[0] == '-' then (-1, s[2..])
    else if |s| >= 1 && s[0] == '0' then (0, s[1..])
    else if |s| >= 1 then (1, s[1..])
    else (0, s)
  }

  /** Reads the three coordinates of a trip name back. */
  function ParseTrip(s: string): Trip
  {
    var (i, r1) := ParseCoord(s);
    var (j, r2) := ParseCoord(r1);
    var (k, _) := ParseCoord(r2);
    Trip(i, j, k)
  }

  lemma ParseCoordOf(d: int, rest: string)
    requires -1 <= d <= 1
    ensures ParseCoord(IntToString(d) + rest) == (d, rest)
  {
    if d == -1 {
      assert IntToString(d) == "-1";
      assert (IntToString(d) + rest)[2..] == rest;
    } else {
      assert IntToString(d) == [DigitChar(d)];
      assert (IntToString(d) + rest)[1..] == rest;
    }
  }

  /** A trip name can be read back: '%d%d%d' is one to one on the grid. */
  lemma TripNameRoundTrip(t: Trip)
    requires InCube(t)
    ensures ParseTrip(TripName(t)) == t
  {
    var a, b, c := IntToString(t.i), IntToString(t.j), IntToString(t.k);
    assert TripName(t) == a + (b + c);
    ParseCoordOf(t.i, b + c);
    ParseCoordOf(t.j, c + "");
    assert c + "" == c;
    ParseCoordOf(t.k, "");
  }

  /** Different cells get differently named placements. */
  lemma NamesDistinct(rev: seq<string>, step: real, t: Trip, u: Trip)
    requires |rev| == 3 && Outer(t) && Outer(u) && t != u
    ensures Block(rev, step, t).name != Block(rev, step, u).name
  {
    TripNameRoundTrip(t);
    TripNameRoundTrip(u);
    var pre := "place_";
    assert TripName(t) == (pre + TripName(t))[|pre|..];
    assert TripName(u) == (pre + TripName(u))[|pre|..];
  }

  // ---------------------------------------------------------------------------
  // RubikBuilder

  /** The volume construct makes: its name, material, half size and the
      placements of its daughters. */
  datatype Cube = Cube(name: string, material: string, halfSize: real, placements: seq<Placement>)

  /** The first volume of each sub-builder, in order; a sub-builder without
      volumes raises IndexError. */
  function FirstVolumes(builders: seq<seq<string>>): (r: Result<seq<string>>)
    ensures r.Ok? <==> forall b :: 0 <= b < |builders| ==> |builders[b]| > 0
    ensures r.Ok? ==> |r.value| == |builders| && forall b :: 0 <= b < |builders| ==> r.value[b] == builders[b][0]
    ensures r.Err? ==> r.failure == IndexError
  {
    if builders == [] then Ok([])
    else
      var front :- FirstVolumes(builders[..|builders| - 1]);
      var last := builders[|builders| - 1];
      if last == [] then Err(IndexError) else Ok(front + [last[0]])
  }

  /** RubikBuilder.construct for a builder named `name`: the sub-builders'
      volume names in order, and the half size dx of the stored shape
      "block1_box_shape" (None when the store has no such shape). */
  function CubeVolume(name: string, material: string, gap: real, builders: seq<seq<string>>, blockDx: Option<real>): Result<Cube>
  {
    match FirstVolumes(builders)
    case Err(e) => Err(e)
    case Ok(blocks) =>
    if |blocks| != 3 then Err(ValueError("wrong number of values to unpack"))
    else if blockDx.None? then Err(AttributeError("dx"))
    else Ok(Assemble(name, material, blockDx.value, gap, blocks))
  }

  /** The cube for three blocks of half size dx with gap `gap` around each
      block, the blocks in reversed order (centre, edge, corner). */
  function Assemble(name: string, material: string, dx: real, gap: real, blocks: seq<string>): Cube
    requires |blocks| == 3
  {
    Cube(name + "_volume", material, HalfSize(dx, gap), CubePlacements([blocks[2], blocks[1], blocks[0]], BlockStep(dx, gap)))
  }

  /** half_size: three pitches, so the outer blocks end a gap inside the cube. */
  function HalfSize(dx: real, gap: real): real
  {
    (dx + gap) * 3.0
  }

  /** step: the distance between neighbouring block centres. */
  function BlockStep(dx: real, gap: real): real
  {
    (dx + gap) * 2.0
  }

  class RubikBuilder {
    var name: string
    var material: string
    var gap: real
    /** The volumes added by add_volume. */
    var volumes: seq<Cube>

    /** configure(material, gap). */
    constructor (name: string, material: string, gap: real)
      ensures this.name == name && this.material == material && this.gap == gap && volumes == []
    {
      this.name := name;
      this.material := material;
      this.gap := gap;
      volumes := [];
    }

    /** construct: reads the sub-builders, adds the cube volume and fills it
        with the 26 blocks. */
    method Construct(builders: seq<seq<string>>, blockDx: Option<real>) returns (r: Result<Cube>)
      modifies this`volumes
      ensures r == CubeVolume(name, material, gap, builders, blockDx)
      ensures volumes == if r.Ok? then old(volumes) + [r.value] else old(volumes)
    {
      r := Build(name, material, gap, builders, blockDx);
      if r.Ok? {
        volumes := volumes + [r.value];
      }
    }
  }

  /** The body of construct up to add_volume. */
  method Build(name: string, material: string, gap: real, builders: seq<seq<string>>, blockDx: Option<real>) returns (r: Result<Cube>)
    ensures r == CubeVolume(name, material, gap, builders, blockDx)
  {
    var read := ReadBlocks(builders);
    if read.Err? {
      return Err(read.failure);
    }
    var blocks := read.value;
    if |blocks| != 3 {
      return Err(ValueError("wrong number of values to unpack"));
    }
    if blockDx.None? {
      return Err(AttributeError("dx"));
    }
    var cube := Fill(name, material, blockDx.value, gap, blocks);
    return Ok(cube);
  }

  /** Reverses the blocks and places them: from blocks.reverse() to the end. */
  method Fill(name: string, material: string, dx: real, gap: real, blocks: seq<string>) returns (cube: Cube)
    requires |blocks| == 3
    ensures cube == Assemble(name, material, dx, gap, blocks)
  {
    var rev := blocks;
    rev := [rev[2], rev[1], rev[0]];  // blocks.reverse()
    var placed := PlaceBlocks(rev, BlockStep(dx, gap));
    cube := Cube(name + "_volume", material, HalfSize(dx, gap), placed);
  }

  /** The loop over the sub-builders collecting their first volumes. */
  method ReadBlocks(builders: seq<seq<string>>) returns (r: Result<seq<string>>)
    ensures r == FirstVolumes(builders)
  {
    var blocks: seq<string> := [];
    for b := 0 to |builders|
      invariant FirstVolumes(builders[..b]) == Ok(blocks)
    {
      assert builders[..b + 1][..b] == builders[..b];
      if builders[b] == [] {
        assert FirstVolumes(builders[..b + 1]) == Err(IndexError);
        FirstVolumesPrefix(builders, b + 1);
        return Err(IndexError);
      }
      blocks := blocks + [builders[b][0]];
    }
    assert builders[..|builders|] == builders;
    return Ok(blocks);
  }

  /** The nested ii, jj, kk loops over [-1, 0, 1]; `a` holds the
      reversed blocks (centre, edge, corner). */
  method PlaceBlocks(a: seq<string>, step: real) returns (placed: seq<Placement>)
    requires |a| == 3
    ensures placed == CubePlacements(a, step)
  {
    placed := [];
    for ii := -1 to 2
      invariant placed == Blocks(a, step, Visits()[..9 * (ii + 1)])
    {
      var slice := PlaceSlice(a, step, ii);
      SlicesStep(a, step, ii, placed, slice);
      placed := placed + slice;
    }
    assert Visits()[..27] == Visits();
  }

  /** The jj loop for one ii. */
  method PlaceSlice(a: seq<string>, step: real, ii: int) returns (placed: seq<Placement>)
    requires |a| == 3 && -1 <= ii <= 1
    ensures placed == Blocks(a, step, Visits()[9 * (ii + 1)..9 * (ii + 1) + 9])
  {
    placed := [];
    for jj := -1 to 2
      invariant placed == Blocks(a, step, Visits()[9 * (ii + 1)..9 * (ii + 1) + 3 * (jj + 1)])
    {
      var column := PlaceColumn(a, step, ii, jj);
      SliceStep(a, step, ii, jj, placed, column);
      placed := placed + column;
    }
  }

  /** The kk loop for one (ii, jj). */
  method PlaceColumn(a: seq<string>, step: real, ii: int, jj: int) returns (placed: seq<Placement>)
    requires |a| == 3 && -1 <= ii <= 1 && -1 <= jj <= 1
    ensures placed == Blocks(a, step, Visits()[ColumnStart(ii, jj)..ColumnStart(ii, jj) + 3])
  {
    placed := [];
    for kk := -1 to 2
      invariant placed == Blocks(a, step, Visits()[ColumnStart(ii, jj)..ColumnStart(ii, jj) + (kk + 1)])
    {
      var cell := PlaceCell(a, step, Trip(ii, jj, kk));
      ColumnStep(a, step, ii, jj, kk, placed, cell);
      placed := placed + cell;
    }
  }

  /** One pass of the kk loop: nothing at the centre (`continue`), otherwise
      the block chosen by `which` at trip * step, named after the trip. */
  method PlaceCell(a: seq<string>, step: real, trip: Trip) returns (cell: seq<Placement>)
    requires |a| == 3 && InCube(trip)
    ensures cell == Cell(a, step, trip)
  {
    if trip == Centre3 {
      return [];
    }
    var which := Abs(trip.i) + Abs(trip.j) + Abs(trip.k) - 1;
    assert which == Which(trip);
    var lv := a[which];
    var pos := Vec3(Coord(trip.i, step), Coord(trip.j, step), Coord(trip.k, step));
    var placement := Placement("place_" + TripName(trip), lv, pos, NoRot);
    assert placement == Block(a, step, trip);
    cell := [placement];
  }

  /** A failure in a prefix of the sub-builders is the failure of all of them. */
  lemma {:induction false} FirstVolumesPrefix(builders: seq<seq<string>>, n: nat)
    requires n <= |builders| && FirstVolumes(builders[..n]).Err?
    ensures FirstVolumes(builders) == FirstVolumes(builders[..n])
    decreases |builders| - n
  {
    if n < |builders| {
      assert builders[..n + 1][..n] == builders[..n];
      FirstVolumesPrefix(builders, n + 1);
    } else {
      assert builders[..n] == builders;
    }
  }
}
