/** The ROOT macro dunefdvd/gl.C: a depth-first walk over the geometry tree
    that counts the volumes it sees per (mapped) name, remembers the first
    "special" node and the first target node, hides nodes whose names match
    an invisibility pattern, and finally prints the counted volumes grouped
    by depth. */
module VolumeTraversal {
  import opened Wrappers
  import opened Strings
  import opened GeoTree

  datatype InvisiblePattern = InvisiblePattern(pattern: string, setAllInvisible: bool)

  datatype NameMapping = NameMapping(pattern: string, mappedName: string)

  /** One entry of gVolumeInfoMap. */
  datatype VolumeInfo = VolumeInfo(name: string, depth: int, parentName: string, materialName: string, count: nat)

  // ---------------------------------------------------------------------------
  // First-match rules

  /** The position of the first rule whose pattern `name` contains, or
      |rules|: the scan shared by shouldBeInvisible and getMappedName. */
  function FirstMatch<T>(rules: seq<T>, pattern: T -> string, name: string): (k: nat)
    ensures k <= |rules|
    ensures forall j :: 0 <= j < k ==> !Contains(name, pattern(rules[j]))
    ensures k < |rules| ==> Contains(name, pattern(rules[k]))
  {
    if rules == [] then 0
    else if Contains(name, pattern(rules[0])) then 0
    else
      var k := FirstMatch(rules[1..], pattern, name);
      assert forall j :: 1 <= j < |rules| ==> rules[j] == rules[1..][j - 1];
      1 + k
  }

  function InvisibleText(p: InvisiblePattern): string
  {
    p.pattern
  }

  function MappingText(m: NameMapping): string
  {
    m.pattern
  }

  /** shouldBeInvisible: (true, flag of the first contained pattern), or
      (false, false) when no pattern is contained in the name. */
  function ShouldBeInvisible(pats: seq<InvisiblePattern>, name: string): (r: (bool, bool))
  {
    var k := FirstMatch(pats, InvisibleText, name);
    if k < |pats| then (true, pats[k].setAllInvisible) else (false, false)
  }

  lemma ShouldBeInvisibleFirst(pats: seq<InvisiblePattern>, name: string, k: nat)
    requires k < |pats| && Contains(name, pats[k].pattern)
    requires forall j :: 0 <= j < k ==> !Contains(name, pats[j].pattern)
    ensures ShouldBeInvisible(pats, name) == (true, pats[k].setAllInvisible)
  {
    var f := FirstMatch(pats, InvisibleText, name);
    assert !(f < k) && !(f > k);
  }

  lemma ShouldBeInvisibleNone(pats: seq<InvisiblePattern>, name: string)
    requires forall j :: 0 <= j < |pats| ==> !Contains(name, pats[j].pattern)
    ensures ShouldBeInvisible(pats, name) == (false, false)
  {
  }

  /** getMappedName: the mapped name of the first matching mapping, or the
      original name when none matches. */
  function MappedName(maps: seq<NameMapping>, name: string): (r: string)
  {
    var k := FirstMatch(maps, MappingText, name);
    if k < |maps| then maps[k].mappedName else name
  }

  lemma MappedNameFirst(maps: seq<NameMapping>, name: string, k: nat)
    requires k < |maps| && Contains(name, maps[k].pattern)
    requires forall j :: 0 <= j < k ==> !Contains(name, maps[j].pattern)
    ensures MappedName(maps, name) == maps[k].mappedName
  {
    var f := FirstMatch(maps, MappingText, name);
    assert !(f < k) && !(f > k);
  }

  lemma MappedNameNone(maps: seq<NameMapping>, name: string)
    requires forall j :: 0 <= j < |maps| ==> !Contains(name, maps[j].pattern)
    ensures MappedName(maps, name) == name
  {
  }

  // ---------------------------------------------------------------------------
  // The traversal as a function of the state

  /** A remembered node with its flag: gSpecialNode/gSpecialNodeFound, and
      the node handed to the event display with gVolumeAdded. */
  datatype Latch = Latch(found: bool, node: Option<GeoNode>)
  {
    /** The flag is checked first: only the first offered node that contains
        the pattern is kept. */
    function Offer(n: GeoNode, pattern: string): Latch
    {
      if !found && Contains(n.name, pattern) then Latch(true, Some(n)) else this
    }
  }

  /** The global state the traversal changes; `invisible` and
      `allInvisible` are the nodes on which SetInvisible and SetAllInvisible
      were called. */
  datatype Walked = Walked(infos: map<string, VolumeInfo>, special: Latch, added: Latch,
                           invisible: set<GeoNode>, allInvisible: set<GeoNode>)

  /** What the traversal reads but does not change. */
  datatype Config = Config(patterns: seq<InvisiblePattern>, mappings: seq<NameMapping>, printing: bool,
                           printLevel: int, target: string, special: string)

  /** A call of traverseNode on a non-null node: the node, its depth and the
      name of its mother volume (absent for the top node). */
  datatype Sighting = Sighting(node: GeoNode, depth: int, mother: Option<string>)

  /** The volume-info update for one sighting: the first sighting of a mapped
      name (within the print depth) inserts an entry with count 1, later ones
      only increment the count. */
  function Record(cfg: Config, infos: map<string, VolumeInfo>, v: Sighting): (r: map<string, VolumeInfo>)
  {
    var mapped := MappedName(cfg.mappings, v.node.name);
    if v.depth <= cfg.printLevel && cfg.printing then
      if mapped in infos then infos[mapped := infos[mapped].(count := infos[mapped].count + 1)]
      else
        var parent := if v.mother.Some? then MappedName(cfg.mappings, v.mother.value) else "none";
        var material := if v.node.material.Some? then v.node.material.value else "unknown";
        infos[mapped := VolumeInfo(mapped, v.depth, parent, material, 1)]
    else infos
  }

  /** Everything traverseNode does at one node before descending. */
  function Visit(cfg: Config, st: Walked, v: Sighting): (r: Walked)
  {
    var (hidden, all) := ShouldBeInvisible(cfg.patterns, v.node.name);
    Walked(Record(cfg, st.infos, v),
           st.special.Offer(v.node, cfg.special),
           st.added.Offer(v.node, cfg.target),
           if hidden then st.invisible + {v.node} else st.invisible,
           if hidden && all then st.allInvisible + {v.node} else st.allInvisible)
  }

  /** traverseNode on a node: visit it, then each daughter in order at
      depth + 1 with this node's volume as their mother volume. */
  function Walk(cfg: Config, st: Walked, n: GeoNode, depth: int, mother: Option<string>): Walked
    decreases n, 1, 0
  {
    WalkFrom(cfg, Visit(cfg, st, Sighting(n, depth, mother)), n, 0, depth)
  }

  function WalkFrom(cfg: Config, st: Walked, n: GeoNode, i: nat, depth: int): Walked
    decreases n, 0, |n.daughters| - i
  {
    if i >= |n.daughters| then st
    else WalkFrom(cfg, Walk(cfg, st, n.daughters[i], depth + 1, Some(n.volume)), n, i + 1, depth)
  }

  /** traverseNode, which returns at once on a null node. */
  function Traverse(cfg: Config, st: Walked, node: Option<GeoNode>, depth: int, mother: Option<string>): Walked
  {
    match node
    case None => st
    case Some(n) => Walk(cfg, st, n, depth, mother)
  }

  // ---------------------------------------------------------------------------
  // The walk visits the preorder

  /** The calls the walk makes, in order. */
  function Sightings(n: GeoNode, depth: int, mother: Option<string>): (r: seq<Sighting>)
    ensures |r| >= 1 && r[0] == Sighting(n, depth, mother)
    decreases n, 1, 0
  {
    [Sighting(n, depth, mother)] + SightingsFrom(n, 0, depth)
  }

  function SightingsFrom(n: GeoNode, i: nat, depth: int): seq<Sighting>
    decreases n, 0, |n.daughters| - i
  {
    if i >= |n.daughters| then []
    else Sightings(n.daughters[i], depth + 1, Some(n.volume)) + SightingsFrom(n, i + 1, depth)
  }

  function Fold(cfg: Config, st: Walked, vs: seq<Sighting>): Walked
    decreases |vs|
  {
    if vs == [] then st else Fold(cfg, Visit(cfg, st, vs[0]), vs[1..])
  }

  lemma {:induction false} FoldConcat(cfg: Config, st: Walked, a: seq<Sighting>, b: seq<Sighting>)
    ensures Fold(cfg, st, a + b) == Fold(cfg, Fold(cfg, st, a), b)
    decreases |a|
  {
    if a == [] {
      assert a + b == b;
    } else {
      assert (a + b)[0] == a[0];
      assert (a + b)[1..] == a[1..] + b;
      FoldConcat(cfg, Visit(cfg, st, a[0]), a[1..], b);
    }
  }

  /** The walk is the visit step applied to its sightings in order: what a
      visit does never changes which nodes are visited next, so all daughters
      are visited whether or not the target was found. */
  lemma {:induction false} WalkIsFold(cfg: Config, st: Walked, n: GeoNode, depth: int, mother: Option<string>)
    ensures Walk(cfg, st, n, depth, mother) == Fold(cfg, st, Sightings(n, depth, mother))
    decreases n, 1, 0
  {
    var v := Sighting(n, depth, mother);
    WalkFromIsFold(cfg, Visit(cfg, st, v), n, 0, depth);
    assert Sightings(n, depth, mother)[1..] == SightingsFrom(n, 0, depth);
  }

  lemma {:induction false} WalkFromIsFold(cfg: Config, st: Walked, n: GeoNode, i: nat, depth: int)
    ensures WalkFrom(cfg, st, n, i, depth) == Fold(cfg, st, SightingsFrom(n, i, depth))
    decreases n, 0, |n.daughters| - i
  {
    if i < |n.daughters| {
      var d := n.daughters[i];
      WalkIsFold(cfg, st, d, depth + 1, Some(n.volume));
      WalkFromIsFold(cfg, Walk(cfg, st, d, depth + 1, Some(n.volume)), n, i + 1, depth);
      FoldConcat(cfg, st, Sightings(d, depth + 1, Some(n.volume)), SightingsFrom(n, i + 1, depth));
    }
  }

  function NodesOf(vs: seq<Sighting>): (r: seq<GeoNode>)
    ensures |r| == |vs| && forall k :: 0 <= k < |vs| ==> r[k] == vs[k].node
  {
    seq(|vs|, k requires 0 <= k < |vs| => vs[k].node)
  }

  /** The nodes the walk visits are the preorder of the tree. */
  lemma {:induction false} SightingsArePreorder(n: GeoNode, depth: int, mother: Option<string>)
    ensures NodesOf(Sightings(n, depth, mother)) == Preorder(n)
    decreases n, 1, 0
  {
    SightingsFromArePreorder(n, 0, depth);
    NodesOfConcat([Sighting(n, depth, mother)], SightingsFrom(n, 0, depth));
  }

  lemma {:induction false} SightingsFromArePreorder(n: GeoNode, i: nat, depth: int)
    ensures NodesOf(SightingsFrom(n, i, depth)) == PreorderFrom(n, i)
    decreases n, 0, |n.daughters| - i
  {
    if i < |n.daughters| {
      SightingsArePreorder(n.daughters[i], depth + 1, Some(n.volume));
      SightingsFromArePreorder(n, i + 1, depth);
      NodesOfConcat(Sightings(n.daughters[i], depth + 1, Some(n.volume)), SightingsFrom(n, i + 1, depth));
    }
  }

  lemma NodesOfConcat(a: seq<Sighting>, b: seq<Sighting>)
    ensures NodesOf(a + b) == NodesOf(a) + NodesOf(b)
  {
  }

  /** Every daughter is visited once at depth + 1 with this node's volume as
      its mother volume, after the node itself. */
  lemma DaughtersVisited(n: GeoNode, depth: int, mother: Option<string>, i: nat)
    requires i < |n.daughters|
    ensures Sighting(n.daughters[i], depth + 1, Some(n.volume)) in Sightings(n, depth, mother)[1..]
  {
    DaughterInFrom(n, 0, i, depth);
    assert Sightings(n, depth, mother)[1..] == SightingsFrom(n, 0, depth);
  }

  lemma {:induction false} DaughterInFrom(n: GeoNode, j: nat, i: nat, depth: int)
    requires j <= i < |n.daughters|
    ensures Sighting(n.daughters[i], depth + 1, Some(n.volume)) in SightingsFrom(n, j, depth)
    decreases i - j
  {
    if j < i {
      DaughterInFrom(n, j + 1, i, depth);
    } else {
      assert SightingsFrom(n, j, depth)[0] == Sighting(n.daughters[i], depth + 1, Some(n.volume));
    }
  }

  // ---------------------------------------------------------------------------
  // What the walk computes

  function CountOf(infos: map<string, VolumeInfo>, m: string): nat
  {
    if m in infos then infos[m].count else 0
  }

  /** Whether the sighting is recorded under mapped name `m`. */
  predicate CountedAs(cfg: Config, v: Sighting, m: string)
  {
    cfg.printing && v.depth <= cfg.printLevel && MappedName(cfg.mappings, v.node.name) == m
  }

  function Counted(cfg: Config, vs: seq<Sighting>, m: string): (c: nat)
    ensures c <= |vs|
  {
    if vs == [] then 0 else (if CountedAs(cfg, vs[0], m) then 1 else 0) + Counted(cfg, vs[1..], m)
  }

  /** Over any run of visits, the count of each mapped name grows by the
      number of its sightings within the print depth, a name gets an entry
      iff it had one or is sighted, and an existing entry keeps its depth,
      parent and material. */
  lemma {:induction false} FoldCounts(cfg: Config, st: Walked, vs: seq<Sighting>, m: string)
    ensures var infos := Fold(cfg, st, vs).infos;
            CountOf(infos, m) == CountOf(st.infos, m) + Counted(cfg, vs, m) &&
            (m in infos <==> m in st.infos || Counted(cfg, vs, m) > 0) &&
            (m in st.infos ==> infos[m] == st.infos[m].(count := infos[m].count))
    decreases |vs|
  {
    if vs != [] {
      FoldCounts(cfg, Visit(cfg, st, vs[0]), vs[1..], m);
    }
  }

  /** The entry a first sighting creates. */
  function FirstInfo(cfg: Config, v: Sighting): VolumeInfo
  {
    VolumeInfo(MappedName(cfg.mappings, v.node.name), v.depth,
               if v.mother.Some? then MappedName(cfg.mappings, v.mother.value) else "none",
               if v.node.material.Some? then v.node.material.value else "unknown", 1)
  }

  /** A name without an entry gets the depth, parent and material of its
      first sighting, and its count is the number of sightings. */
  lemma {:induction false} FoldFirstSighting(cfg: Config, st: Walked, vs: seq<Sighting>, m: string, k: nat)
    requires m !in st.infos && k < |vs| && CountedAs(cfg, vs[k], m)
    requires forall j :: 0 <= j < k ==> !CountedAs(cfg, vs[j], m)
    ensures m in Fold(cfg, st, vs).infos
    ensures Fold(cfg, st, vs).infos[m] == FirstInfo(cfg, vs[k]).(count := Counted(cfg, vs, m))
    decreases |vs|
  {
    var st1 := Visit(cfg, st, vs[0]);
    if k == 0 {
      assert st1.infos[m] == FirstInfo(cfg, vs[0]);
      FoldCounts(cfg, st1, vs[1..], m);
    } else {
      assert m !in st1.infos;
      FoldFirstSighting(cfg, st1, vs[1..], m, k - 1);
    }
  }

  /** Entries are keyed by their own name, lie within the print depth and
      have a positive count. */
  predicate WellFormedInfos(cfg: Config, infos: map<string, VolumeInfo>)
  {
    forall m :: m in infos ==> infos[m].name == m && infos[m].depth <= cfg.printLevel && infos[m].count >= 1
  }

  lemma {:induction false} FoldKeepsWellFormed(cfg: Config, st: Walked, vs: seq<Sighting>)
    requires WellFormedInfos(cfg, st.infos)
    ensures WellFormedInfos(cfg, Fold(cfg, st, vs).infos)
    decreases |vs|
  {
    if vs != [] {
      FoldKeepsWellFormed(cfg, Visit(cfg, st, vs[0]), vs[1..]);
    }
  }

  function NameContains(pattern: string): GeoNode -> bool
  {
    (x: GeoNode) => Contains(x.name, pattern)
  }

  /** What a latch holds after the nodes `ns` have been offered to it. */
  function OfferedAll(l: Latch, ns: seq<GeoNode>, pattern: string): Latch
  {
    var first := FirstWhere(ns, NameContains(pattern));
    if l.found || first.None? then l else Latch(true, first)
  }

  lemma {:induction false} FoldLatches(cfg: Config, st: Walked, vs: seq<Sighting>)
    ensures Fold(cfg, st, vs).special == OfferedAll(st.special, NodesOf(vs), cfg.special)
    ensures Fold(cfg, st, vs).added == OfferedAll(st.added, NodesOf(vs), cfg.target)
    decreases |vs|
  {
    if vs != [] {
      FoldLatches(cfg, Visit(cfg, st, vs[0]), vs[1..]);
      assert NodesOf(vs) == [vs[0].node] + NodesOf(vs[1..]);
      FirstWhereConcat([vs[0].node], NodesOf(vs[1..]), NameContains(cfg.special));
      FirstWhereConcat([vs[0].node], NodesOf(vs[1..]), NameContains(cfg.target));
    }
  }

  lemma {:induction false} FoldHides(cfg: Config, st: Walked, vs: seq<Sighting>)
    ensures forall x :: x in Fold(cfg, st, vs).invisible <==>
                          x in st.invisible || (x in NodesOf(vs) && ShouldBeInvisible(cfg.patterns, x.name).0)
    ensures forall x :: x in Fold(cfg, st, vs).allInvisible <==>
                          x in st.allInvisible || (x in NodesOf(vs) && ShouldBeInvisible(cfg.patterns, x.name) == (true, true))
    decreases |vs|
  {
    if vs != [] {
      FoldHides(cfg, Visit(cfg, st, vs[0]), vs[1..]);
      assert NodesOf(vs) == [vs[0].node] + NodesOf(vs[1..]);
    }
  }

  /** The special node and the added node are the first nodes of the
      preorder whose names contain the special and the target name, and
      neither changes once its flag is set. */
  lemma WalkLatches(cfg: Config, st: Walked, n: GeoNode, depth: int, mother: Option<string>)
    ensures Walk(cfg, st, n, depth, mother).special == OfferedAll(st.special, Preorder(n), cfg.special)
    ensures Walk(cfg, st, n, depth, mother).added == OfferedAll(st.added, Preorder(n), cfg.target)
  {
    WalkIsFold(cfg, st, n, depth, mother);
    FoldLatches(cfg, st, Sightings(n, depth, mother));
    SightingsArePreorder(n, depth, mother);
  }

  /** SetInvisible is called on exactly the nodes of the tree that match an
      invisibility pattern, SetAllInvisible on those whose first matching
      pattern carries the flag. */
  lemma WalkHides(cfg: Config, st: Walked, n: GeoNode, depth: int, mother: Option<string>)
    ensures forall x :: x in Walk(cfg, st, n, depth, mother).invisible <==>
                          x in st.invisible || (x in Preorder(n) && ShouldBeInvisible(cfg.patterns, x.name).0)
    ensures forall x :: x in Walk(cfg, st, n, depth, mother).allInvisible <==>
                          x in st.allInvisible || (x in Preorder(n) && ShouldBeInvisible(cfg.patterns, x.name) == (true, true))
  {
    WalkIsFold(cfg, st, n, depth, mother);
    FoldHides(cfg, st, Sightings(n, depth, mother));
    SightingsArePreorder(n, depth, mother);
  }

  /** The counts after a walk are the counts before plus the sightings of
      each mapped name within the print depth. */
  lemma WalkCounts(cfg: Config, st: Walked, n: GeoNode, depth: int, mother: Option<string>, m: string)
    ensures var infos := Walk(cfg, st, n, depth, mother).infos;
            var c := Counted(cfg, Sightings(n, depth, mother), m);
            CountOf(infos, m) == CountOf(st.infos, m) + c &&
            (m in infos <==> m in st.infos || c > 0) &&
            (m in st.infos ==> infos[m] == st.infos[m].(count := infos[m].count))
  {
    WalkIsFold(cfg, st, n, depth, mother);
    FoldCounts(cfg, st, Sightings(n, depth, mother), m);
  }

  // ---------------------------------------------------------------------------
  // The key order of gVolumeInfoMap

  /** TString's operator<: character by character, a proper prefix first. */
  predicate StrLess(a: string, b: string)
  {
    if a == [] then b != []
    else if b == [] then false
    else a[0] < b[0] || (a[0] == b[0] && StrLess(a[1..], b[1..]))
  }

  lemma {:induction false} StrLessIrreflexive(a: string)
    ensures !StrLess(a, a)
  {
    if a != [] {
      StrLessIrreflexive(a[1..]);
    }
  }

  lemma {:induction false} StrLessTransitive(a: string, b: string, c: string)
    requires StrLess(a, b) && StrLess(b, c)
    ensures StrLess(a, c)
  {
    if a != [] && a[0] == b[0] && b[0] == c[0] {
      StrLessTransitive(a[1..], b[1..], c[1..]);
    }
  }

  lemma {:induction false} StrLessTotal(a: string, b: string)
    requires a != b
    ensures StrLess(a, b) || StrLess(b, a)
  {
    if a != [] && b != [] && a[0] == b[0] {
      assert a == [a[0]] + a[1..] && b == [b[0]] + b[1..];
      StrLessTotal(a[1..], b[1..]);
    }
  }

  /** `order` lists the keys of `infos` once each, in ascending key order:
      the order in which a std::map visits them. */
  predicate KeyOrder(infos: map<string, VolumeInfo>, order: seq<string>)
  {
    (forall g, h :: 0 <= g < h < |order| ==> StrLess(order[g], order[h])) &&
    (forall k :: k in order ==> k in infos) && (forall k :: k in infos ==> k in order)
  }

  /** Two ascending lists of the same keys are the same list: a map has one
      key order. */
  lemma {:induction false} KeyOrderUnique(a: seq<string>, b: seq<string>)
    requires forall g, h :: 0 <= g < h < |a| ==> StrLess(a[g], a[h])
    requires forall g, h :: 0 <= g < h < |b| ==> StrLess(b[g], b[h])
    requires forall k :: k in a <==> k in b
    ensures a == b
    decreases |a|
  {
    if a == [] {
      DistinctCount(b);
      assert (set k | k in b) == {};
    } else {
      assert a[0] in a && b != [] && b[0] in b;
      var i :| 0 <= i < |a| && a[i] == b[0];
      var j :| 0 <= j < |b| && b[j] == a[0];
      if i > 0 && j > 0 {
        StrLessTransitive(a[0], a[i], a[0]);
        StrLessIrreflexive(a[0]);
      } else if i > 0 {
        StrLessIrreflexive(a[0]);
      } else if j > 0 {
        StrLessIrreflexive(b[0]);
      }
      assert a[0] == b[0];
      forall k
        ensures k in a[1..] <==> k in b[1..]
      {
        if k in a[1..] {
          var g :| 1 <= g < |a| && a[g] == k;
          assert StrLess(a[0], a[g]);
          StrLessIrreflexive(k);
          assert k in b && k != b[0];
          var h :| 0 <= h < |b| && b[h] == k;
          assert b[1..][h - 1] == k;
        }
        if k in b[1..] {
          var h :| 1 <= h < |b| && b[h] == k;
          assert StrLess(b[0], b[h]);
          StrLessIrreflexive(k);
          assert k in a && k != a[0];
          var g :| 0 <= g < |a| && a[g] == k;
          assert a[1..][g - 1] == k;
        }
      }
      KeyOrderUnique(a[1..], b[1..]);
      assert a == [a[0]] + a[1..] && b == [b[0]] + b[1..];
    }
  }

  /** A non-empty set of keys has a least key. */
  lemma {:induction false} LeastKey(keys: set<string>)
    requires keys != {}
    ensures exists k :: k in keys && forall x :: x in keys && x != k ==> StrLess(k, x)
    decreases |keys|
  {
    var y :| y in keys;
    var rest := keys - {y};
    if rest == {} {
      assert keys == {y};
    } else {
      LeastKey(rest);
      var m :| m in rest && forall x :: x in rest && x != m ==> StrLess(m, x);
      if StrLess(y, m) {
        forall x | x in keys && x != y
          ensures StrLess(y, x)
        {
          if x != m {
            StrLessTransitive(y, m, x);
          }
        }
      } else {
        StrLessTotal(y, m);
        assert forall x :: x in keys && x != m ==> StrLess(m, x);
      }
    }
  }

  /** The keys of gVolumeInfoMap in the order the map visits them: the least
      remaining key, again and again. */
  method KeysInOrder(infos: map<string, VolumeInfo>) returns (order: seq<string>)
    ensures KeyOrder(infos, order)
  {
    order := [];
    var rest := infos.Keys;
    while rest != {}
      invariant forall g, h :: 0 <= g < h < |order| ==> StrLess(order[g], order[h])
      invariant forall k :: k in infos <==> k in order || k in rest
      invariant forall k :: k in rest ==> k !in order
      invariant forall g, k :: 0 <= g < |order| && k in rest ==> StrLess(order[g], k)
      decreases |rest|
    {
      LeastKey(rest);
      var k :| k in rest && forall x :: x in rest && x != k ==> StrLess(k, x);
      order := order + [k];
      rest := rest - {k};
    }
  }

  // ---------------------------------------------------------------------------
  // printVolumeSummary

  /** The entries of `infos` visited in key order. */
  function Entries(infos: map<string, VolumeInfo>, order: seq<string>): (r: seq<VolumeInfo>)
    requires KeyOrder(infos, order)
    ensures |r| == |order| == |infos| && forall k :: 0 <= k < |order| ==> r[k] == infos[order[k]]
    ensures forall k :: k in infos ==> exists g :: 0 <= g < |r| && r[g] == infos[k]
  {
    KeyCount(infos, order);
    var r := seq(|order|, k requires 0 <= k < |order| => infos[order[k]]);
    assert forall k :: k in infos ==> exists g :: 0 <= g < |r| && r[g] == infos[k] by {
      forall k | k in infos
        ensures exists g :: 0 <= g < |r| && r[g] == infos[k]
      {
        var g :| 0 <= g < |order| && order[g] == k;
        assert r[g] == infos[k];
      }
    }
    r
  }

  /** A key order lists each key once, so it is as long as the map. */
  lemma KeyCount(infos: map<string, VolumeInfo>, order: seq<string>)
    requires KeyOrder(infos, order)
    ensures |order| == |infos|
  {
    var keys := set k | k in order;
    assert keys == infos.Keys;
    DistinctCount(order);
  }

  /** An ascending list has as many elements as its set. */
  lemma {:induction false} DistinctCount(order: seq<string>)
    requires forall g, h :: 0 <= g < h < |order| ==> StrLess(order[g], order[h])
    ensures |set k | k in order| == |order|
  {
    if order != [] {
      var tail := order[1..];
      DistinctCount(tail);
      StrLessIrreflexive(order[0]);
      forall h | 0 <= h < |tail|
        ensures tail[h] != order[0]
      {
        assert StrLess(order[0], order[h + 1]);
      }
      assert (set k | k in order) == (set k | k in tail) + {order[0]};
    }
  }

  /** The subsequence of entries at depth `d`. */
  function AtDepth(es: seq<VolumeInfo>, d: int): (r: seq<VolumeInfo>)
    ensures forall k :: 0 <= k < |r| ==> r[k].depth == d
    decreases |es|
  {
    if es == [] then []
    else AtDepth(es[..|es| - 1], d) + (if es[|es| - 1].depth == d then [es[|es| - 1]] else [])
  }

  lemma {:induction false} AtDepthEmpty(es: seq<VolumeInfo>, d: int)
    ensures AtDepth(es, d) == [] <==> forall k :: 0 <= k < |es| ==> es[k].depth != d
    decreases |es|
  {
    if es != [] {
      AtDepthEmpty(es[..|es| - 1], d);
      assert forall k :: 0 <= k < |es| - 1 ==> es[..|es| - 1][k] == es[k];
    }
  }

  /** std::map<int, std::vector<VolumeInfo>> as its ascending list of
      (depth, entries) pairs. */
  type DepthMap = seq<(int, seq<VolumeInfo>)>

  predicate Ascending(m: DepthMap)
  {
    forall g, h :: 0 <= g < h < |m| ==> m[g].0 < m[h].0
  }

  /** The entries stored under depth `d`, or none. */
  function EntriesAt(m: DepthMap, d: int): seq<VolumeInfo>
  {
    if m == [] then [] else if m[0].0 == d then m[0].1 else EntriesAt(m[1..], d)
  }

  /** `depthMap[e.depth].push_back(e)`: append to the depth's list, creating
      it in its place in the order when the depth is new. */
  function PushBack(m: DepthMap, e: VolumeInfo): (r: DepthMap)
  {
    if m == [] then [(e.depth, [e])]
    else if m[0].0 == e.depth then [(e.depth, m[0].1 + [e])] + m[1..]
    else if e.depth < m[0].0 then [(e.depth, [e])] + m
    else [m[0]] + PushBack(m[1..], e)
  }

  /** A bound below the pushed depth and below every depth of the map stays
      below every depth of the result. */
  lemma {:induction false} PushBackAbove(m: DepthMap, e: VolumeInfo, lo: int)
    requires lo < e.depth && forall h :: 0 <= h < |m| ==> lo < m[h].0
    ensures forall g :: 0 <= g < |PushBack(m, e)| ==> lo < PushBack(m, e)[g].0
    decreases |m|
  {
    if m != [] && m[0].0 != e.depth && e.depth >= m[0].0 {
      PushBackAbove(m[1..], e, lo);
      assert forall g :: 1 <= g < |PushBack(m, e)| ==> PushBack(m, e)[g] == PushBack(m[1..], e)[g - 1];
    }
  }

  lemma AscendingCons(x: (int, seq<VolumeInfo>), m: DepthMap)
    requires Ascending(m) && forall h :: 0 <= h < |m| ==> x.0 < m[h].0
    ensures Ascending([x] + m)
  {
    var r := [x] + m;
    forall g, h | 0 <= g < h < |r|
      ensures r[g].0 < r[h].0
    {
      assert r[h] == m[h - 1];
      if g > 0 {
        assert r[g] == m[g - 1];
      }
    }
  }

  /** Pushing keeps the depths ascending and every list non-empty, and adds
      the entry at the end of its depth's list only. */
  lemma {:induction false} PushBackSpec(m: DepthMap, e: VolumeInfo)
    requires Ascending(m) && forall g :: 0 <= g < |m| ==> m[g].1 != []
    ensures var r := PushBack(m, e);
            Ascending(r) && (forall g :: 0 <= g < |r| ==> r[g].1 != []) &&
            forall d :: EntriesAt(r, d) == EntriesAt(m, d) + (if d == e.depth then [e] else [])
    decreases |m|
  {
    if m == [] {
    } else if m[0].0 == e.depth {
      var r := PushBack(m, e);
      assert r[1..] == m[1..];
    } else if e.depth < m[0].0 {
      EntriesAtBelow(m, e.depth);
      assert PushBack(m, e)[1..] == m;
    } else {
      PushBackSpec(m[1..], e);
      PushBackAbove(m[1..], e, m[0].0);
      AscendingCons(m[0], PushBack(m[1..], e));
      assert PushBack(m, e) == [m[0]] + PushBack(m[1..], e);
    }
  }

  /** A depth below every key of an ascending map has no entries. */
  lemma {:induction false} EntriesAtBelow(m: DepthMap, d: int)
    requires Ascending(m) && (m != [] ==> d < m[0].0)
    ensures EntriesAt(m, d) == []
    decreases |m|
  {
    if m != [] {
      EntriesAtBelow(m[1..], d);
    }
  }

  /** In an ascending map, each pair is what its depth looks up. */
  lemma {:induction false} EntriesAtIndex(m: DepthMap, g: nat)
    requires Ascending(m) && g < |m|
    ensures EntriesAt(m, m[g].0) == m[g].1
    decreases g
  {
    if g > 0 {
      EntriesAtIndex(m[1..], g - 1);
    }
  }

  /** A depth with entries is one of the map's keys. */
  lemma {:induction false} EntriesAtPresent(m: DepthMap, d: int)
    requires EntriesAt(m, d) != []
    ensures exists g :: 0 <= g < |m| && m[g].0 == d
    decreases |m|
  {
    if m[0].0 != d {
      EntriesAtPresent(m[1..], d);
      var g :| 0 <= g < |m[1..]| && m[1..][g].0 == d;
      assert m[g + 1].0 == d;
    }
  }

  lemma DepthPresent(es: seq<VolumeInfo>, m: DepthMap, k: nat)
    requires k < |es| && forall d :: EntriesAt(m, d) == AtDepth(es, d)
    ensures exists g :: 0 <= g < |m| && m[g].0 == es[k].depth
  {
    AtDepthEmpty(es, es[k].depth);
    EntriesAtPresent(m, es[k].depth);
  }

  /** printVolumeSummary without the text: the entries, visited in key
      order, are pushed onto the list of their depth; the resulting groups
      are listed by increasing depth, each non-empty and holding exactly the
      entries of that depth in key order, and every entry's depth has one.
      The key order is returned with the groups. */
  method VolumeSummary(infos: map<string, VolumeInfo>) returns (order: seq<string>, depthMap: DepthMap)
    ensures KeyOrder(infos, order)
    ensures Ascending(depthMap)
    ensures forall g :: 0 <= g < |depthMap| ==>
              depthMap[g].1 == AtDepth(Entries(infos, order), depthMap[g].0) && depthMap[g].1 != []
    ensures forall k :: k in infos ==> exists g :: 0 <= g < |depthMap| && depthMap[g].0 == infos[k].depth
  {
    order := KeysInOrder(infos);
    depthMap := GroupByDepth(Entries(infos, order));
    SummaryComplete(infos, order, depthMap);
  }

  /** The loop of printVolumeSummary: each entry in turn is pushed onto the
      list of its depth. */
  method GroupByDepth(es: seq<VolumeInfo>) returns (depthMap: DepthMap)
    ensures Ascending(depthMap) && forall g :: 0 <= g < |depthMap| ==> depthMap[g].1 != []
    ensures forall d :: EntriesAt(depthMap, d) == AtDepth(es, d)
  {
    depthMap := [];
    var i := 0;
    while i < |es|
      invariant 0 <= i <= |es|
      invariant Ascending(depthMap) && forall g :: 0 <= g < |depthMap| ==> depthMap[g].1 != []
      invariant forall d :: EntriesAt(depthMap, d) == AtDepth(es[..i], d)
    {
      assert es[..i + 1][..i] == es[..i];
      PushBackSpec(depthMap, es[i]);
      depthMap := PushBack(depthMap, es[i]);
      i := i + 1;
    }
    assert es[..i] == es;
  }

  /** The groups a finished summary holds: each is its depth's entries, and
      every entry's depth has one. */
  lemma SummaryComplete(infos: map<string, VolumeInfo>, order: seq<string>, depthMap: DepthMap)
    requires KeyOrder(infos, order)
    requires Ascending(depthMap)
    requires forall d :: EntriesAt(depthMap, d) == AtDepth(Entries(infos, order), d)
    ensures forall g :: 0 <= g < |depthMap| ==> depthMap[g].1 == AtDepth(Entries(infos, order), depthMap[g].0)
    ensures forall k :: k in infos ==> exists g :: 0 <= g < |depthMap| && depthMap[g].0 == infos[k].depth
  {
    var es := Entries(infos, order);
    forall g | 0 <= g < |depthMap|
      ensures depthMap[g].1 == AtDepth(es, depthMap[g].0)
    {
      EntriesAtIndex(depthMap, g);
    }
    forall k | k in infos
      ensures exists g :: 0 <= g < |depthMap| && depthMap[g].0 == infos[k].depth
    {
      var i :| 0 <= i < |order| && order[i] == k;
      DepthPresent(es, depthMap, i);
      assert es[i].depth == infos[k].depth;
    }
  }

  // ---------------------------------------------------------------------------
  // The macro's globals

  class Display {
    var infos: map<string, VolumeInfo>
    var specialNode: Option<GeoNode>
    var specialFound: bool
    var addedNode: Option<GeoNode>
    var volumeAdded: bool
    var invisible: set<GeoNode>
    var allInvisible: set<GeoNode>
    var patterns: seq<InvisiblePattern>
    var mappings: seq<NameMapping>
    /** gPrint and gPrintLevel. */
    const printing: bool
    const printLevel: int

    function State(): Walked
      reads this
    {
      Walked(infos, Latch(specialFound, specialNode), Latch(volumeAdded, addedNode), invisible, allInvisible)
    }

    function Cfg(target: string, special: string): Config
      reads this
    {
      Config(patterns, mappings, printing, printLevel, target, special)
    }

    /** The static initial values of the globals. */
    constructor()
      ensures State() == Walked(map[], Latch(false, None), Latch(false, None), {}, {})
      ensures patterns == [] && mappings == [] && printing && printLevel == 6
    {
      infos := map[];
      specialNode, specialFound := None, false;
      addedNode, volumeAdded := None, false;
      invisible, allInvisible := {}, {};
      patterns, mappings := [], [];
      printing, printLevel := true, 6;
    }

    /** traverseNode on a possibly null node. */
    method TraverseNode(node: Option<GeoNode>, target: string, special: string, depth: int, mother: Option<string>)
      modifies this
      ensures State() == Traverse(old(Cfg(target, special)), old(State()), node, depth, mother)
      ensures patterns == old(patterns) && mappings == old(mappings)
    {
      if node.None? {
        return;
      }
      WalkNode(node.value, target, special, depth, mother);
    }

    /** The part of traverseNode before the loop over the daughters. */
    method VisitNode(n: GeoNode, target: string, special: string, depth: int, mother: Option<string>)
      modifies this
      ensures State() == Visit(old(Cfg(target, special)), old(State()), Sighting(n, depth, mother))
      ensures patterns == old(patterns) && mappings == old(mappings)
    {
      RecordVolume(n, target, special, depth, mother);
      MarkSpecial(n, special);
      Hide(n);
      AddTarget(n, target);
    }

    /** Remember the first node whose name contains `special`. */
    method MarkSpecial(n: GeoNode, special: string)
      modifies this`specialNode, this`specialFound
      ensures Latch(specialFound, specialNode) == old(Latch(specialFound, specialNode)).Offer(n, special)
    {
      if !specialFound && Contains(n.name, special) {
        specialNode := Some(n);
        specialFound := true;
      }
    }

    /** Hand the first node whose name contains `target` to the display. */
    method AddTarget(n: GeoNode, target: string)
      modifies this`addedNode, this`volumeAdded
      ensures Latch(volumeAdded, addedNode) == old(Latch(volumeAdded, addedNode)).Offer(n, target)
    {
      if Contains(n.name, target) && !volumeAdded {
        addedNode := Some(n);
        volumeAdded := true;
      }
    }

    /** Store the volume information under the mapped name. */
    method RecordVolume(n: GeoNode, target: string, special: string, depth: int, mother: Option<string>)
      modifies this`infos
      ensures infos == Record(Cfg(target, special), old(infos), Sighting(n, depth, mother))
    {
      var mappedName := MappedName(mappings, n.name);
      var parentName := if mother.Some? then MappedName(mappings, mother.value) else "none";
      var materialName := if n.material.Some? then n.material.value else "unknown";
      if depth <= printLevel && printing {
        if mappedName in infos {
          infos := infos[mappedName := infos[mappedName].(count := infos[mappedName].count + 1)];
        } else {
          infos := infos[mappedName := VolumeInfo(mappedName, depth, parentName, materialName, 1)];
        }
      }
    }

    /** Check and set invisibility. */
    method Hide(n: GeoNode)
      modifies this`invisible, this`allInvisible
      ensures var (hidden, all) := ShouldBeInvisible(patterns, n.name);
              invisible == (if hidden then old(invisible) + {n} else old(invisible)) &&
              allInvisible == (if hidden && all then old(allInvisible) + {n} else old(allInvisible))
    {
      var (isInvisible, setAll) := ShouldBeInvisible(patterns, n.name);
      if isInvisible {
        invisible := invisible + {n};
        if setAll {
          allInvisible := allInvisible + {n};
        }
      }
    }

    /** traverseNode on a node the tree holds (daughters are never null). */
    method WalkNode(n: GeoNode, target: string, special: string, depth: int, mother: Option<string>)
      modifies this
      ensures State() == Walk(old(Cfg(target, special)), old(State()), n, depth, mother)
      ensures patterns == old(patterns) && mappings == old(mappings)
      decreases n
    {
      ghost var cfg := Cfg(target, special);
      VisitNode(n, target, special, depth, mother);
      ghost var visited := State();
      var i := 0;
      while i < |n.daughters|
        invariant 0 <= i <= |n.daughters|
        invariant Cfg(target, special) == cfg
        invariant WalkFrom(cfg, State(), n, i, depth) == WalkFrom(cfg, visited, n, 0, depth)
      {
        WalkNode(n.daughters[i], target, special, depth + 1, Some(n.volume));
        i := i + 1;
      }
    }

    /** gl(): sets the invisibility patterns, resets the flags and the
        volume map, and walks the geometry from the top node looking for
        "volCryostat" and "volTPC". The drawing calls are not modelled. */
    method Gl(world: Option<GeoNode>)
      modifies this
      ensures patterns == [InvisiblePattern("SteelShell", true)] && mappings == old(mappings)
      ensures State() == Traverse(Cfg("volCryostat", "volTPC"),
                                  Walked(map[], Latch(false, None), Latch(false, old(addedNode)), old(invisible), old(allInvisible)),
                                  world, 0, None)
    {
      patterns := [InvisiblePattern("SteelShell", true)];
      specialNode := None;
      specialFound := false;
      volumeAdded := false;
      infos := map[];
      TraverseNode(world, "volCryostat", "volTPC", 0, None);
    }
  }
}
