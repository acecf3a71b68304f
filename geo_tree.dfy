/** The ROOT geometry tree the C++ macros walk, as a value: a node has its own
    name, the name of its volume, the material of that volume (absent when the
    volume or its material is missing) and its daughters in order. */
module GeoTree {
  import opened Wrappers

  datatype GeoNode = GeoNode(name: string, volume: string, material: Option<string>, daughters: seq<GeoNode>)

  /** Every node of the subtree in depth-first preorder: the node itself, then
      the preorder of each daughter in turn. */
  function Preorder(n: GeoNode): (r: seq<GeoNode>)
    ensures |r| >= 1 && r[0] == n
    decreases n, 1, 0
  {
    [n] + PreorderFrom(n, 0)
  }

  /** The preorders of daughters `i`, `i`+1, ... of `n`, one after the other. */
  function PreorderFrom(n: GeoNode, i: nat): (r: seq<GeoNode>)
    decreases n, 0, |n.daughters| - i
  {
    if i >= |n.daughters| then [] else Preorder(n.daughters[i]) + PreorderFrom(n, i + 1)
  }

  /** The position of the first element of `s` satisfying `p`, or |s| when none does. */
  function FirstIndex(s: seq<GeoNode>, p: GeoNode -> bool): (k: nat)
    ensures k <= |s|
    ensures forall j :: 0 <= j < k ==> !p(s[j])
    ensures k < |s| ==> p(s[k])
  {
    if s == [] then 0
    else if p(s[0]) then 0
    else
      var k := FirstIndex(s[1..], p);
      assert forall j :: 1 <= j < |s| ==> s[j] == s[1..][j - 1];
      1 + k
  }

  /** The first element of `s` satisfying `p`. */
  function FirstWhere(s: seq<GeoNode>, p: GeoNode -> bool): (r: Option<GeoNode>)
    ensures r.None? <==> forall k :: 0 <= k < |s| ==> !p(s[k])
    ensures r.Some? ==> p(r.value) && r.value in s
  {
    var k := FirstIndex(s, p);
    if k < |s| then Some(s[k]) else None
  }

  /** Searching a concatenation finds the first part's match if it has one. */
  lemma {:induction false} FirstWhereConcat(a: seq<GeoNode>, b: seq<GeoNode>, p: GeoNode -> bool)
    ensures FirstWhere(a + b, p) == if FirstWhere(a, p).Some? then FirstWhere(a, p) else FirstWhere(b, p)
  {
    FirstIndexConcat(a, b, p);
    if FirstIndex(a, p) == |a| {
      assert (a + b)[|a| + FirstIndex(b, p)..] == b[FirstIndex(b, p)..];
    }
  }

  lemma {:induction false} FirstIndexConcat(a: seq<GeoNode>, b: seq<GeoNode>, p: GeoNode -> bool)
    ensures FirstIndex(a + b, p) == if FirstIndex(a, p) < |a| then FirstIndex(a, p) else |a| + FirstIndex(b, p)
    decreases |a|
  {
    if a == [] {
      assert a + b == b;
    } else {
      assert (a + b)[0] == a[0];
      assert (a + b)[1..] == a[1..] + b;
      if !p(a[0]) {
        FirstIndexConcat(a[1..], b, p);
      }
    }
  }

  /** A node is the one looked for when its own name or its volume's name is
      the wanted name (volume_sampler.C compares both). */
  predicate Matches(n: GeoNode, wanted: string)
  {
    n.name == wanted || n.volume == wanted
  }

  /** A daughter of `n` matches `wanted`. */
  predicate HasMatchingDaughter(n: GeoNode, wanted: string)
  {
    exists j :: 0 <= j < |n.daughters| && Matches(n.daughters[j], wanted)
  }
}
