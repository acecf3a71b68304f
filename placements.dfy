/** Placement records: what the builders hand to the geometry library. The
    library itself is not modelled; a placement is the record it is given. */
module Placements {
  import opened Wrappers

  /** A position in the mother volume's frame (cm). */
  datatype Vec3 = Vec3(x: real, y: real, z: real)

  /** A named placement of a volume at a position, with the name of a
      rotation, or NoRot when the placement has none. */
  datatype Placement = Placement(name: string, volume: string, pos: Vec3, rot: string)

  const NoRot: string := ""

  const Origin3: Vec3 := Vec3(0.0, 0.0, 0.0)

  /** The placements a loop over columns 0 .. n-1 of row i appends when it
      places two volumes per cell: first(i, j), then second(i, j). */
  function PairRow<T>(first: (nat, nat) -> T, second: (nat, nat) -> T, i: nat, n: nat): seq<T>
  {
    if n == 0 then [] else PairRow(first, second, i, n - 1) + [first(i, n - 1), second(i, n - 1)]
  }

  /** The placements of rows 0 .. m-1 of an m-by-n grid, row by row. */
  function PairGrid<T>(first: (nat, nat) -> T, second: (nat, nat) -> T, m: nat, n: nat): seq<T>
  {
    if m == 0 then [] else PairGrid(first, second, m - 1, n) + PairRow(first, second, m - 1, n)
  }

  lemma {:induction false} PairRowLength<T>(first: (nat, nat) -> T, second: (nat, nat) -> T, i: nat, n: nat)
    ensures |PairRow(first, second, i, n)| == 2 * n
  {
    if n > 0 { PairRowLength(first, second, i, n - 1); }
  }

  lemma {:induction false} PairRowPrefix<T>(first: (nat, nat) -> T, second: (nat, nat) -> T, i: nat, m: nat, n: nat)
    requires m <= n
    ensures PairRow(first, second, i, m) <= PairRow(first, second, i, n)
  {
    if m < n { PairRowPrefix(first, second, i, m, n - 1); }
  }

  /** Cell j of a row has its two placements at positions 2j and 2j + 1. */
  lemma PairRowAt<T>(first: (nat, nat) -> T, second: (nat, nat) -> T, i: nat, n: nat, j: nat)
    requires j < n
    ensures |PairRow(first, second, i, n)| == 2 * n
    ensures PairRow(first, second, i, n)[2 * j] == first(i, j)
    ensures PairRow(first, second, i, n)[2 * j + 1] == second(i, j)
  {
    PairRowLength(first, second, i, n);
    PairRowLength(first, second, i, j);
    PairRowPrefix(first, second, i, j + 1, n);
    var r := PairRow(first, second, i, n);
    assert r[2 * j] == PairRow(first, second, i, j + 1)[2 * j];
    assert r[2 * j + 1] == PairRow(first, second, i, j + 1)[2 * j + 1];
  }

  /** Two placements per cell: 2 * m * n in all. */
  lemma {:induction false} PairGridLength<T>(first: (nat, nat) -> T, second: (nat, nat) -> T, m: nat, n: nat)
    ensures |PairGrid(first, second, m, n)| == 2 * (m * n)
  {
    if m > 0 {
      PairGridLength(first, second, m - 1, n);
      PairRowLength(first, second, m - 1, n);
      assert m * n == (m - 1) * n + n;
    }
  }

  /** The rows before row i, then row i, start the grid. */
  lemma {:induction false} PairGridRow<T>(first: (nat, nat) -> T, second: (nat, nat) -> T, i: nat, m: nat, n: nat)
    requires i < m
    ensures PairGrid(first, second, i, n) + PairRow(first, second, i, n) <= PairGrid(first, second, m, n)
  {
    if i < m - 1 { PairGridRow(first, second, i, m - 1, n); }
  }

  /** Cell (i, j), number i * n + j in row-major order, has its two
      placements at positions 2 * (i * n + j) and the one after it. */
  lemma PairGridAt<T>(first: (nat, nat) -> T, second: (nat, nat) -> T, m: nat, n: nat, i: nat, j: nat)
    requires i < m && j < n
    ensures 2 * (i * n + j) + 1 < |PairGrid(first, second, m, n)|
    ensures PairGrid(first, second, m, n)[2 * (i * n + j)] == first(i, j)
    ensures PairGrid(first, second, m, n)[2 * (i * n + j) + 1] == second(i, j)
  {
    PairGridRow(first, second, i, m, n);
    PairGridLength(first, second, i, n);
    PairRowAt(first, second, i, n, j);
    PairInBlock(PairGrid(first, second, i, n), PairRow(first, second, i, n), PairGrid(first, second, m, n), i * n, j);
  }

  /** Pair j of a block that follows `base` pairs is pair base + j of the whole. */
  lemma PairInBlock<T>(g: seq<T>, r: seq<T>, all: seq<T>, base: nat, j: nat)
    requires g + r <= all && |g| == 2 * base && 2 * j + 1 < |r|
    ensures 2 * (base + j) + 1 < |all|
    ensures all[2 * (base + j)] == r[2 * j] && all[2 * (base + j) + 1] == r[2 * j + 1]
  {
    assert all[|g| + 2 * j] == (g + r)[|g| + 2 * j];
    assert all[|g| + 2 * j + 1] == (g + r)[|g| + 2 * j + 1];
  }

  /** The number of iterations of `range(n)`: max(n, 0). */
  function RangeLen(n: int): nat
  {
    if n < 0 then 0 else n
  }

  /** The placements a loop over k = 0 .. n-1 appends when step k appends f(k). */
  function Flatten<T>(f: nat -> seq<T>, n: nat): seq<T>
  {
    if n == 0 then [] else Flatten(f, n - 1) + f(n - 1)
  }

  /** The entries of `s` that `keep` accepts, in order. */
  function Filter<T>(keep: T -> bool, s: seq<T>): (r: seq<T>)
    ensures |r| <= |s|
    ensures forall x :: x in r ==> x in s && keep(x)
  {
    if |s| == 0 then [] else (if keep(s[0]) then [s[0]] else []) + Filter(keep, s[1..])
  }

  lemma {:induction false} FilterAppend<T>(keep: T -> bool, a: seq<T>, b: seq<T>)
    ensures Filter(keep, a + b) == Filter(keep, a) + Filter(keep, b)
  {
    if |a| == 0 {
      assert a + b == b;
    } else {
      assert (a + b)[0] == a[0];
      assert (a + b)[1..] == a[1..] + b;
      FilterAppend(keep, a[1..], b);
    }
  }

  /** Filtering the output of a loop filters each step's output. */
  lemma {:induction false} FilterFlatten<T>(keep: T -> bool, f: nat -> seq<T>, g: nat -> seq<T>, n: nat)
    requires forall k :: 0 <= k < n ==> Filter(keep, f(k)) == g(k)
    ensures Filter(keep, Flatten(f, n)) == Flatten(g, n)
  {
    if n > 0 {
      FilterFlatten(keep, f, g, n - 1);
      FilterAppend(keep, Flatten(f, n - 1), f(n - 1));
    }
  }

  lemma {:induction false} FlattenPrefix<T>(f: nat -> seq<T>, k: nat, n: nat)
    requires k <= n
    ensures Flatten(f, k) <= Flatten(f, n)
  {
    if k < n {
      FlattenPrefix(f, k, n - 1);
    }
  }

  /** When every step appends m entries, the loop appends n * m of them. */
  lemma {:induction false} FlattenLength<T>(f: nat -> seq<T>, n: nat, m: nat)
    requires forall k :: 0 <= k < n ==> |f(k)| == m
    ensures |Flatten(f, n)| == n * m
  {
    if n > 0 {
      FlattenLength(f, n - 1, m);
      assert n * m == (n - 1) * m + m;
    }
  }

  /** Entry j of step k is entry k * m + j of the whole, when every step
      appends m entries. */
  lemma FlattenAt<T>(f: nat -> seq<T>, n: nat, m: nat, k: nat, j: nat)
    requires forall i :: 0 <= i < n ==> |f(i)| == m
    requires k < n && j < m
    ensures k * m + j < |Flatten(f, n)| && Flatten(f, n)[k * m + j] == f(k)[j]
  {
    FlattenLength(f, n, m);
    FlattenLength(f, k, m);
    FlattenPrefix(f, k + 1, n);
    var whole := Flatten(f, n);
    var front := Flatten(f, k + 1);
    assert front == Flatten(f, k) + f(k);
    assert front[k * m + j] == f(k)[j];
  }

  /** The same entry when the loop's output follows a prefix `before`. */
  lemma FlattenAtAfter<T>(before: seq<T>, f: nat -> seq<T>, n: nat, m: nat, k: nat, j: nat)
    requires forall i :: 0 <= i < n ==> |f(i)| == m
    requires k < n && j < m
    ensures |before| + k * m + j < |before + Flatten(f, n)|
    ensures (before + Flatten(f, n))[|before| + k * m + j] == f(k)[j]
  {
    FlattenAt(f, n, m, k, j);
  }

  /** Row r of a grid that appends one entry g(r, c) per cell. */
  function Singles<T>(g: (nat, nat) -> T, r: nat): nat -> seq<T>
  {
    (c: nat) => [g(r, c)]
  }

  function SingleRows<T>(g: (nat, nat) -> T, n: nat): nat -> seq<T>
  {
    (r: nat) => Flatten(Singles(g, r), n)
  }

  /** The loop steps of such a grid: one entry per column, one row per row. */
  lemma SingleStep<T>(g: (nat, nat) -> T, n: nat, i: nat, j: nat)
    ensures Flatten(Singles(g, i), j + 1) == Flatten(Singles(g, i), j) + [g(i, j)]
    ensures Flatten(SingleRows(g, n), i + 1) == Flatten(SingleRows(g, n), i) + Flatten(Singles(g, i), n)
  {
  }

  /** Cell (i, j) of an m-by-n grid with one entry per cell is entry i n + j. */
  lemma SingleGridAt<T>(g: (nat, nat) -> T, m: nat, n: nat, i: nat, j: nat)
    requires i < m && j < n
    ensures |Flatten(SingleRows(g, n), m)| == m * n
    ensures i * n + j < m * n && Flatten(SingleRows(g, n), m)[i * n + j] == g(i, j)
  {
    forall r: nat | r < m
      ensures |SingleRows(g, n)(r)| == n
    {
      FlattenLength(Singles(g, r), n, 1);
    }
    FlattenLength(SingleRows(g, n), m, n);
    FlattenAt(SingleRows(g, n), m, n, i, j);
    FlattenAt(Singles(g, i), n, 1, j, 0);
  }

  /** One more step of a loop that appends f(k) at step k after `before`. */
  lemma FlattenSnoc<T>(before: seq<T>, f: nat -> seq<T>, j: nat, x: seq<T>)
    requires x == f(j)
    ensures before + Flatten(f, j) + x == before + Flatten(f, j + 1)
  {
  }

  /** The position of cell (i, j) in a row-major grid with n columns. */
  function CellIndex(i: nat, n: nat, j: nat): nat
  {
    i * n + j
  }

  /** When `keep` picks exactly g(r, c) out of row r, column by column, it
      picks cell (i, j) of an m-by-n grid at position i n + j. */
  lemma FilterGridAt<T>(keep: T -> bool, rows: nat -> seq<T>, g: (nat, nat) -> T, m: nat, n: nat, i: nat, j: nat)
    requires i < m && j < n
    requires forall r :: 0 <= r < m ==> Filter(keep, rows(r)) == SingleRows(g, n)(r)
    ensures |Filter(keep, Flatten(rows, m))| == m * n
    ensures CellIndex(i, n, j) < m * n && Filter(keep, Flatten(rows, m))[CellIndex(i, n, j)] == g(i, j)
  {
    FilterFlatten(keep, rows, SingleRows(g, n), m);
    SingleGridAt(g, m, n, i, j);
  }

  /** Steps none of whose entries `keep` accepts leave nothing. */
  lemma {:induction false} FilterNone<T>(keep: T -> bool, f: nat -> seq<T>, n: nat)
    requires forall k, x :: 0 <= k < n && x in f(k) ==> !keep(x)
    ensures Filter(keep, Flatten(f, n)) == []
  {
    if n > 0 {
      FilterNone(keep, f, n - 1);
      FilterAppend(keep, Flatten(f, n - 1), f(n - 1));
      NoneKept(keep, f(n - 1));
    }
  }

  lemma {:induction false} NoneKept<T>(keep: T -> bool, s: seq<T>)
    requires forall x :: x in s ==> !keep(x)
    ensures Filter(keep, s) == []
  {
    if |s| > 0 {
      assert s[0] in s;
      assert forall x :: x in s[1..] ==> x in s;
      NoneKept(keep, s[1..]);
    }
  }

  /** Row r of a loop nest whose cell (r, c) appends cell(r, c). */
  function CellRow<T>(cell: (nat, nat) -> seq<T>, r: nat): nat -> seq<T>
  {
    (c: nat) => cell(r, c)
  }

  function GridRows<T>(cell: (nat, nat) -> seq<T>, n: nat): nat -> seq<T>
  {
    (r: nat) => Flatten(CellRow(cell, r), n)
  }

  /** What an m-by-n loop nest appends when cell (r, c) appends cell(r, c):
      the cells row by row. */
  function Grid<T>(cell: (nat, nat) -> seq<T>, m: nat, n: nat): seq<T>
  {
    Flatten(GridRows(cell, n), m)
  }

  /** The loop steps of such a nest: one cell per column, one row per row. */
  lemma GridStep<T>(cell: (nat, nat) -> seq<T>, n: nat, i: nat)
    ensures Grid(cell, i + 1, n) == Grid(cell, i, n) + Flatten(CellRow(cell, i), n)
  {
  }

  lemma RowStep<T>(cell: (nat, nat) -> seq<T>, i: nat, j: nat)
    ensures Flatten(CellRow(cell, i), j + 1) == Flatten(CellRow(cell, i), j) + cell(i, j)
  {
  }

  /** When every cell appends w entries, the nest appends m n w of them, and
      entry e of cell (i, j) is entry (i n + j) w + e. */
  lemma GridAt<T>(cell: (nat, nat) -> seq<T>, m: nat, n: nat, w: nat, i: nat, j: nat, e: nat)
    requires forall r: nat, c: nat :: r < m && c < n ==> |cell(r, c)| == w
    requires i < m && j < n && e < w
    ensures |Grid(cell, m, n)| == m * n * w
    ensures (i * n + j) * w + e < m * n * w && Grid(cell, m, n)[(i * n + j) * w + e] == cell(i, j)[e]
  {
    var rows := GridRows(cell, n);
    GridLength(cell, m, n, w);
    RowLengths(cell, m, n, w);
    FlattenAt(CellRow(cell, i), n, w, j, e);
    WithinRow(n, w, j, e);
    FlattenAt(rows, m, n * w, i, j * w + e);
    GridIndex(m, n, w, i, j, e);
  }

  /** The cell that appends the one entry g(r, c). */
  function OneEach<T>(g: (nat, nat) -> T): (nat, nat) -> seq<T>
  {
    (r: nat, c: nat) => [g(r, c)]
  }

  /** A nest whose cells append one entry each holds m n entries, g(i, j)
      at position i n + j. */
  lemma OneEachAt<T>(g: (nat, nat) -> T, m: nat, n: nat, i: nat, j: nat)
    requires i < m && j < n
    ensures |Grid(OneEach(g), m, n)| == m * n
    ensures CellIndex(i, n, j) < m * n && Grid(OneEach(g), m, n)[CellIndex(i, n, j)] == g(i, j)
  {
    forall r: nat, c: nat | r < m && c < n
      ensures |OneEach(g)(r, c)| == 1
    {
    }
    GridAt(OneEach(g), m, n, 1, i, j, 0);
    assert (i * n + j) * 1 + 0 == CellIndex(i, n, j);
  }

  lemma GridIndex(m: nat, n: nat, w: nat, i: nat, j: nat, e: nat)
    ensures i * (n * w) + (j * w + e) == (i * n + j) * w + e
    ensures m * (n * w) == m * n * w
  {
  }

  lemma WithinRow(n: nat, w: nat, j: nat, e: nat)
    requires j < n && e < w
    ensures j * w + e < n * w
  {
    assert j * w + e < j * w + w == (j + 1) * w <= n * w;
  }

  lemma RowLengths<T>(cell: (nat, nat) -> seq<T>, m: nat, n: nat, w: nat)
    requires forall r: nat, c: nat :: r < m && c < n ==> |cell(r, c)| == w
    ensures forall r: nat :: r < m ==> |GridRows(cell, n)(r)| == n * w
    ensures forall r: nat :: r < m ==> forall c: nat :: c < n ==> |CellRow(cell, r)(c)| == w
  {
    forall r: nat | r < m
      ensures |GridRows(cell, n)(r)| == n * w
    {
      FlattenLength(CellRow(cell, r), n, w);
    }
  }

  /** When every cell appends w entries, the nest appends m n w of them. */
  lemma GridLength<T>(cell: (nat, nat) -> seq<T>, m: nat, n: nat, w: nat)
    requires forall r: nat, c: nat :: r < m && c < n ==> |cell(r, c)| == w
    ensures |Grid(cell, m, n)| == m * n * w
  {
    RowLengths(cell, m, n, w);
    FlattenLength(GridRows(cell, n), m, n * w);
    GridIndex(m, n, w, 0, 0, 0);
  }

  /** The values a loop over k = 0 .. n-1 appends when step k computes f(k)
      and the first failure ends the loop: the values before it, and that
      failure. */
  function Collect<T>(f: nat -> Result<T>, n: nat): (o: (Result<()>, seq<T>))
    ensures |o.1| <= n
    ensures o.0.Ok? ==> |o.1| == n
  {
    if n == 0 then (Ok(()), [])
    else
      var (r, xs) := Collect(f, n - 1);
      if r.Err? then (r, xs)
      else
        match f(n - 1)
        case Err(e) => (Err(e), xs)
        case Ok(x) => (Ok(()), xs + [x])
  }

  /** After a successful loop, entry k is step k's value. */
  lemma {:induction false} CollectAt<T>(f: nat -> Result<T>, n: nat, k: nat)
    requires k < n && Collect(f, n).0.Ok?
    ensures f(k).Ok? && Collect(f, n).1[k] == f(k).value
  {
    if k < n - 1 {
      CollectAt(f, n - 1, k);
    }
  }

  /** Once a step fails, later steps change nothing. */
  lemma {:induction false} CollectStayFailed<T>(f: nat -> Result<T>, m: nat, n: nat)
    requires m <= n && Collect(f, m).0.Err?
    ensures Collect(f, n) == Collect(f, m)
  {
    if m < n {
      CollectStayFailed(f, m, n - 1);
    }
  }

  /** The loop succeeds exactly when every step does. */
  lemma {:induction false} CollectOk<T>(f: nat -> Result<T>, n: nat)
    ensures Collect(f, n).0.Ok? <==> forall k :: 0 <= k < n ==> f(k).Ok?
  {
    if n > 0 {
      CollectOk(f, n - 1);
    }
  }

  /** What a step that may fail appends: its placements, or nothing. */
  function Placed<T>(r: Result<seq<T>>): seq<T>
  {
    if r.Ok? then r.value else []
  }

  /** A step's failure as a list of at most one. */
  function Failed<T>(r: Result<T>): seq<Failure>
  {
    if r.Err? then [r.failure] else []
  }

  /** The outcome of a loop whose steps may fail: the first failure among
      `fs`, the steps' failures in loop order, or else `x`. */
  function FirstFailure<T>(fs: seq<Failure>, x: T): (r: Result<T>)
    ensures r.Ok? <==> |fs| == 0
    ensures r.Ok? ==> r.value == x
    ensures r.Err? ==> r.failure == fs[0]
  {
    if |fs| == 0 then Ok(x) else Err(fs[0])
  }

  /** The first entry of a loop's output comes from the first step that
      appends anything. */
  lemma FlattenFirst<T>(f: nat -> seq<T>, k: nat, n: nat)
    requires k < n && Flatten(f, k) == [] && |f(k)| > 0
    ensures |Flatten(f, n)| > 0 && Flatten(f, n)[0] == f(k)[0]
  {
    FlattenPrefix(f, k + 1, n);
    assert Flatten(f, k + 1) == f(k);
  }

  /** What every step's output satisfies, the loop's output does. */
  lemma {:induction false} FlattenAll<T>(f: nat -> seq<T>, n: nat, ok: T -> bool)
    requires forall k, x :: 0 <= k < n && x in f(k) ==> ok(x)
    ensures forall x :: x in Flatten(f, n) ==> ok(x)
  {
    if n > 0 {
      FlattenAll(f, n - 1, ok);
    }
  }
}
