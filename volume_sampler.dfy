/** The search and counting logic of larfd/volume_sampler.C: find the sampled
    volume in the tree, climb from it to the world through its mothers, take
    the bounding box of its transformed corners, and count how many random
    points in that box fall in the wanted material. */
module VolumeSampler {
  import opened Wrappers
  import opened GeoTree

  // ---------------------------------------------------------------------------
  // findNode

  /** findNode: the node itself when its node or volume name is `wanted`,
      otherwise the first hit among its daughters, searched in order. */
  function FindNode(n: GeoNode, wanted: string): (r: Option<GeoNode>)
    decreases n, 1, 0
  {
    if Matches(n, wanted) then Some(n) else FindFrom(n, 0, wanted)
  }

  /** The daughter loop of findNode, from daughter `i` on. */
  function FindFrom(n: GeoNode, i: nat, wanted: string): (r: Option<GeoNode>)
    decreases n, 0, |n.daughters| - i
  {
    if i >= |n.daughters| then None
    else
      match FindNode(n.daughters[i], wanted)
      case Some(t) => Some(t)
      case None => FindFrom(n, i + 1, wanted)
  }

  /** findNode returns the first node of the preorder that matches; in
      particular it fails exactly when no node of the subtree matches. */
  lemma {:induction false} FindNodeIsFirstInPreorder(n: GeoNode, wanted: string)
    ensures FindNode(n, wanted) == FirstWhere(Preorder(n), x => Matches(x, wanted))
    ensures FindNode(n, wanted).None? <==> forall x :: x in Preorder(n) ==> !Matches(x, wanted)
    decreases n, 1, 0
  {
    var p := (x: GeoNode) => Matches(x, wanted);
    FirstWhereConcat([n], PreorderFrom(n, 0), p);
    if !Matches(n, wanted) {
      FindFromIsFirstInPreorder(n, 0, wanted);
    }
  }

  lemma {:induction false} FindFromIsFirstInPreorder(n: GeoNode, i: nat, wanted: string)
    ensures FindFrom(n, i, wanted) == FirstWhere(PreorderFrom(n, i), x => Matches(x, wanted))
    decreases n, 0, |n.daughters| - i
  {
    if i < |n.daughters| {
      var p := (x: GeoNode) => Matches(x, wanted);
      FindNodeIsFirstInPreorder(n.daughters[i], wanted);
      FirstWhereConcat(Preorder(n.daughters[i]), PreorderFrom(n, i + 1), p);
      FindFromIsFirstInPreorder(n, i + 1, wanted);
    }
  }

  // ---------------------------------------------------------------------------
  // findMotherNode

  /** findMotherNode as written. `mother` is the in/out argument the caller
      passes; the loop over the daughters returns at once when a daughter
      matches, but otherwise keeps only the LAST daughter's recursive result
      in `found`, so a hit under an earlier daughter is forgotten. */
  function FindMotherAsWritten(n: GeoNode, wanted: string, mother: Option<GeoNode>): (r: (bool, Option<GeoNode>))
    decreases n, 1, 0
  {
    if |n.daughters| == 0 then (false, mother)
    else MotherLoopAsWritten(n, 0, wanted, false, mother)
  }

  function MotherLoopAsWritten(n: GeoNode, i: nat, wanted: string, found: bool, mother: Option<GeoNode>): (r: (bool, Option<GeoNode>))
    decreases n, 0, |n.daughters| - i
  {
    if i >= |n.daughters| then (found, mother)
    else if Matches(n.daughters[i], wanted) then (true, Some(n))
    else
      var (f, m) := FindMotherAsWritten(n.daughters[i], wanted, mother);
      MotherLoopAsWritten(n, i + 1, wanted, f, m)
  }

  /** When a daughter of `n` matches, findMotherNode reports `n` as the mother,
      whatever the searches under the daughters before it did to `mother`. */
  lemma DirectDaughterAsWritten(n: GeoNode, wanted: string, mother: Option<GeoNode>)
    requires HasMatchingDaughter(n, wanted)
    ensures FindMotherAsWritten(n, wanted, mother) == (true, Some(n))
  {
    LoopReachesDaughter(n, 0, wanted, false, mother);
  }

  lemma {:induction false} LoopReachesDaughter(n: GeoNode, i: nat, wanted: string, found: bool, mother: Option<GeoNode>)
    requires exists j :: i <= j < |n.daughters| && Matches(n.daughters[j], wanted)
    ensures MotherLoopAsWritten(n, i, wanted, found, mother) == (true, Some(n))
    decreases |n.daughters| - i
  {
    if !Matches(n.daughters[i], wanted) {
      var (f, m) := FindMotherAsWritten(n.daughters[i], wanted, mother);
      LoopReachesDaughter(n, i + 1, wanted, f, m);
    }
  }

  /** A world with two daughters A and B, where A holds volX: the mother of
      volX is A, yet findMotherNode as written reports false, because the
      search under B (the last daughter) overwrites the hit under A. */
  lemma FindMotherAsWrittenMissesEarlierHit()
    ensures var x := GeoNode("volX", "volX", None, []);
            var a := GeoNode("volA", "volA", None, [x]);
            var b := GeoNode("volB", "volB", None, []);
            var world := GeoNode("volWorld", "volWorld", None, [a, b]);
            FindMotherAsWritten(world, "volX", None) == (false, Some(a)) &&
            FindMother(world, "volX") == Some(a)
  {
    var x := GeoNode("volX", "volX", None, []);
    var a := GeoNode("volA", "volA", None, [x]);
    var b := GeoNode("volB", "volB", None, []);
    var world := GeoNode("volWorld", "volWorld", None, [a, b]);
    assert !Matches(a, "volX") && !Matches(b, "volX") && Matches(x, "volX");
    assert FindMotherAsWritten(a, "volX", None) == (true, Some(a));
    assert FindMotherAsWritten(b, "volX", Some(a)) == (false, Some(a));
    assert MotherLoopAsWritten(world, 1, "volX", true, Some(a)) == (false, Some(a));
    assert FindMother(a, "volX") == Some(a);
  }

  /** findMotherNode with the evident intent: a daughter that matches makes
      `n` the mother; otherwise the search descends into that daughter and
      stops at the first hit, and only then moves on to the next daughter. */
  function FindMother(n: GeoNode, wanted: string): (r: Option<GeoNode>)
    decreases n, 1, 0
  {
    MotherFrom(n, 0, wanted)
  }

  function MotherFrom(n: GeoNode, i: nat, wanted: string): (r: Option<GeoNode>)
    decreases n, 0, |n.daughters| - i
  {
    if i >= |n.daughters| then None
    else if Matches(n.daughters[i], wanted) then Some(n)
    else
      match FindMother(n.daughters[i], wanted)
      case Some(m) => Some(m)
      case None => MotherFrom(n, i + 1, wanted)
  }

  /** The corrected search finds a mother exactly when some node strictly
      below `n` matches, and what it returns is a node of the subtree with a
      matching daughter. */
  lemma {:induction false} FindMotherCorrect(n: GeoNode, wanted: string)
    ensures FindMother(n, wanted).Some? <==> FindFrom(n, 0, wanted).Some?
    ensures FindMother(n, wanted).Some? ==>
              FindMother(n, wanted).value in Preorder(n) && HasMatchingDaughter(FindMother(n, wanted).value, wanted)
    decreases n, 1, 0
  {
    MotherFromCorrect(n, 0, wanted);
  }

  lemma {:induction false} MotherFromCorrect(n: GeoNode, i: nat, wanted: string)
    ensures MotherFrom(n, i, wanted).Some? <==> FindFrom(n, i, wanted).Some?
    ensures MotherFrom(n, i, wanted).Some? ==>
              MotherFrom(n, i, wanted).value in Preorder(n) && HasMatchingDaughter(MotherFrom(n, i, wanted).value, wanted)
    decreases n, 0, |n.daughters| - i
  {
    if i < |n.daughters| {
      var d := n.daughters[i];
      if !Matches(d, wanted) {
        FindMotherCorrect(d, wanted);
        assert FindNode(d, wanted) == FindFrom(d, 0, wanted);
        if FindMother(d, wanted).Some? {
          PreorderFromContains(n, i, FindMother(d, wanted).value);
        } else {
          MotherFromCorrect(n, i + 1, wanted);
        }
      }
    }
  }

  /** A node of a daughter's preorder is in the preorder of the parent. */
  lemma {:induction false} PreorderFromContains(n: GeoNode, i: nat, x: GeoNode)
    requires i < |n.daughters| && x in Preorder(n.daughters[i])
    ensures x in Preorder(n)
    decreases |n.daughters| - i
  {
    if i > 0 {
      PreorderFromMonotone(n, i - 1, x);
    }
  }

  lemma {:induction false} PreorderFromMonotone(n: GeoNode, j: nat, x: GeoNode)
    requires j + 1 < |n.daughters| && x in PreorderFrom(n, j + 1)
    ensures x in PreorderFrom(n, 0)
    decreases j
  {
    assert x in PreorderFrom(n, j);
    if j > 0 {
      PreorderFromMonotone(n, j - 1, x);
    }
  }

  // ---------------------------------------------------------------------------
  // The mother chain of volume_sampler()

  /** The bound `nmax` on the number of mothers climbed. */
  const MaxMothers: nat := 20

  /** The mothers collected by the climbing loop from `current` with `fuel`
      iterations left: it stops at the world or when the fuel is used up, and
      throws when no mother of the current node's name is found. */
  function Chain(world: GeoNode, current: GeoNode, fuel: nat): (r: Result<seq<GeoNode>>)
    ensures r.Ok? ==> |r.value| <= fuel
    ensures r.Err? ==> r.failure.Terminate?
    decreases fuel
  {
    if current == world || fuel == 0 then Ok([])
    else
      match FindMother(world, current.name)
      case None => Err(Terminate("Didn't find mum of " + current.name))
      case Some(m) =>
        var rest :- Chain(world, m, fuel - 1);
        Ok([m] + rest)
  }

  /** Each collected mother has a daughter named like the node before it
      (the sampled node for the first mother), every mother lies in the world
      tree, and a chain shorter than the fuel ends at the world. */
  lemma {:induction false} ChainLinks(world: GeoNode, current: GeoNode, fuel: nat)
    requires Chain(world, current, fuel).Ok?
    ensures var ms := Chain(world, current, fuel).value;
            var nodes := [current] + ms;
            (forall k :: 0 <= k < |ms| ==> ms[k] in Preorder(world) && HasMatchingDaughter(ms[k], nodes[k].name)) &&
            (|ms| < fuel ==> nodes[|ms|] == world)
    decreases fuel
  {
    if current != world && fuel != 0 {
      var m := FindMother(world, current.name).value;
      FindMotherCorrect(world, current.name);
      ChainLinks(world, m, fuel - 1);
      var rest := Chain(world, m, fuel - 1).value;
      assert Chain(world, current, fuel).value == [m] + rest;
      assert forall k :: 1 <= k < |rest| + 1 ==> ([current] + ([m] + rest))[k] == ([m] + rest)[k - 1];
    }
  }

  /** The climbing loop of volume_sampler() (at most `nmax` = 20 steps). */
  method ClimbToWorld(world: GeoNode, start: GeoNode) returns (r: Result<seq<GeoNode>>)
    ensures r == Chain(world, start, MaxMothers)
  {
    var mothers: seq<GeoNode> := [];
    var current := start;
    var iter: nat := 0;
    PrependEmpty(Chain(world, start, MaxMothers));
    while current != world && iter < MaxMothers
      invariant iter <= MaxMothers
      invariant Chain(world, start, MaxMothers) == Prepend(mothers, Chain(world, current, MaxMothers - iter))
      decreases MaxMothers - iter
    {
      iter := iter + 1;
      var mother := FindMother(world, current.name);
      if mother.None? {
        return Err(Terminate("Didn't find mum of " + current.name));
      }
      PrependAssoc(mothers, [mother.value], Chain(world, mother.value, MaxMothers - iter));
      mothers := mothers + [mother.value];
      current := mother.value;
    }
    assert Chain(world, current, MaxMothers - iter) == Ok([]);
    assert mothers + [] == mothers;
    return Ok(mothers);
  }

  /** The first part of volume_sampler(): find the sampled volume, throwing
      when it is absent, then climb to the world. */
  method Locate(world: GeoNode, volume: string) returns (r: Result<(GeoNode, seq<GeoNode>)>)
    ensures r.Err? <==> FindNode(world, volume).None? || Chain(world, FindNode(world, volume).value, MaxMothers).Err?
    ensures r.Ok? ==> r.value.0 == FindNode(world, volume).value && Matches(r.value.0, volume) &&
                      r.value.1 == Chain(world, r.value.0, MaxMothers).value
  {
    var target := FindNode(world, volume);
    if target.None? {
      return Err(Terminate("volume not found: " + volume));
    }
    FindNodeIsFirstInPreorder(world, volume);
    var mothers := ClimbToWorld(world, target.value);
    if mothers.Err? {
      return Err(mothers.failure);
    }
    return Ok((target.value, mothers.value));
  }

  // ---------------------------------------------------------------------------
  // The bounding box of the transformed corners

  /** The per-axis update of the corner loop as written: the new maximum is
      taken between the NEW MINIMUM and the corner, not the old maximum. */
  function AxisBoundsAsWritten(xs: seq<real>, lo: real, hi: real): (r: (real, real))
    decreases |xs|
  {
    if xs == [] then (lo, hi)
    else
      var lo' := if xs[0] < lo then xs[0] else lo;
      var hi' := if xs[0] > lo' then xs[0] else lo';
      AxisBoundsAsWritten(xs[1..], lo', hi')
  }

  /** Since the new minimum never exceeds the corner, the "maximum" is simply
      the last corner's coordinate. With two corners at 1 and 0 (a rotated
      volume), the box would span [0, 0] instead of [0, 1]. */
  lemma {:induction false} AxisBoundsAsWrittenKeepsLast(xs: seq<real>, lo: real, hi: real)
    requires xs != []
    ensures AxisBoundsAsWritten(xs, lo, hi).1 == xs[|xs| - 1]
    decreases |xs|
  {
    var lo' := if xs[0] < lo then xs[0] else lo;
    var hi' := if xs[0] > lo' then xs[0] else lo';
    if |xs| > 1 {
      AxisBoundsAsWrittenKeepsLast(xs[1..], lo', hi');
    }
  }

  lemma AxisBoundsAsWrittenCounterexample()
    ensures AxisBoundsAsWritten([1.0, 0.0], 1.0e30, -1.0e30) == (0.0, 0.0)
    ensures AxisBounds([1.0, 0.0], 1.0e30, -1.0e30) == (0.0, 1.0)
  {
  }

  /** The evident intent: running minimum and running maximum. */
  function AxisBounds(xs: seq<real>, lo: real, hi: real): (r: (real, real))
    ensures forall k :: 0 <= k < |xs| ==> r.0 <= xs[k] <= r.1
    ensures r.0 <= lo && r.1 >= hi
    ensures r.0 == lo || r.0 in xs
    ensures r.1 == hi || r.1 in xs
    decreases |xs|
  {
    if xs == [] then (lo, hi)
    else
      var r := AxisBounds(xs[1..], if xs[0] < lo then xs[0] else lo, if xs[0] > hi then xs[0] else hi);
      assert forall k :: 1 <= k < |xs| ==> xs[k] == xs[1..][k - 1];
      r
  }

  /** The corner loop for one axis, starting from the source's sentinels
      1e30 and -1e30, with the maximum corrected. */
  method BoundingInterval(xs: seq<real>) returns (lo: real, hi: real)
    ensures (lo, hi) == AxisBounds(xs, 1.0e30, -1.0e30)
  {
    lo, hi := 1.0e30, -1.0e30;
    var i := 0;
    while i < |xs|
      invariant 0 <= i <= |xs|
      invariant AxisBounds(xs[i..], lo, hi) == AxisBounds(xs, 1.0e30, -1.0e30)
    {
      assert xs[i..][1..] == xs[i + 1..];
      lo := if xs[i] < lo then xs[i] else lo;
      hi := if xs[i] > hi then xs[i] else hi;
      i := i + 1;
    }
  }

  // ---------------------------------------------------------------------------
  // The sampling loop

  /** `npoint`, the number of hits wanted, and `nmax_tries` = 100 * npoint. */
  const NPoint: nat := 100000
  const NMaxTries: nat := NPoint * 100

  /** How many of the first `n` tries landed in the wanted material;
      `hit(k)` is whether the k-th random point did. */
  function Hits(hit: nat -> bool, n: nat): (c: nat)
    ensures c <= n
  {
    if n == 0 then 0 else Hits(hit, n - 1) + (if hit(n - 1) then 1 else 0)
  }

  /** The sampling loop: one try per iteration, counting the hits, until
      `npoint` hits or `nmax_tries` tries. The random points and the
      navigator's material lookup are abstracted into `hit`. */
  method Sample(hit: nat -> bool) returns (nfound: nat, ntries: nat)
    ensures nfound == Hits(hit, ntries) && nfound <= ntries <= NMaxTries
    ensures nfound == NPoint || ntries == NMaxTries
    ensures nfound <= NPoint
    ensures ntries > 0 ==> Hits(hit, ntries - 1) < NPoint
  {
    nfound, ntries := 0, 0;
    while nfound < NPoint && ntries < NMaxTries
      invariant nfound == Hits(hit, ntries) && ntries <= NMaxTries && nfound <= NPoint
      invariant ntries > 0 ==> Hits(hit, ntries - 1) < NPoint
    {
      ntries := ntries + 1;
      if !hit(ntries - 1) {
        continue;
      }
      nfound := nfound + 1;
    }
  }

  /** The sampled volume: the hit fraction times the box volume; no hit at
      all ends the macro with return code 1. */
  function SpecificVolume(nfound: nat, ntries: nat, boxVolume: real): (r: Result<real>)
    requires nfound <= ntries
    ensures r.Err? <==> nfound == 0
    ensures r.Ok? && boxVolume >= 0.0 ==> 0.0 < r.value <= boxVolume || (boxVolume == 0.0 && r.value == 0.0)
  {
    if nfound == 0 then Err(SystemExit(1))
    else Ok((nfound as real / ntries as real) * boxVolume)
  }
}
