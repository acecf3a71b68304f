/** The name clean-up of Develop-Area/point_walk.C: a node name such as
    "volTPC_12" is reduced to "volTPC" by removing a last '_' that is
    followed only by decimal digits. */
module PointWalk {
  import opened Wrappers
  import opened Strings

  /** std::string::find_last_of for one character. */
  function LastIndexOf(s: string, c: char): (r: Option<nat>)
    ensures r.None? <==> c !in s
    ensures r.Some? ==> r.value < |s| && s[r.value] == c && forall k :: r.value < k < |s| ==> s[k] != c
  {
    if s == [] then None
    else if s[|s| - 1] == c then Some(|s| - 1)
    else
      var r := LastIndexOf(s[..|s| - 1], c);
      assert forall k :: 0 <= k < |s| - 1 ==> s[..|s| - 1][k] == s[k];
      assert c in s ==> c in s[..|s| - 1] by {
        if c in s {
          var k :| 0 <= k < |s| && s[k] == c;
          assert s[..|s| - 1][k] == c;
        }
      }
      r
  }

  predicate AllDigits(s: string)
  {
    forall k :: 0 <= k < |s| ==> IsDigit(s[k])
  }

  /** remove_trailing_nums: without any '_' the name is kept; when a
      character after the last '_' is not a digit the name is kept; otherwise
      the name is cut just before that '_' (also when nothing follows it). */
  function RemoveTrailingNums(s: string): (r: string)
    ensures r <= s
  {
    match LastIndexOf(s, '_')
    case None => s
    case Some(lu) => if AllDigits(s[lu + 1..]) then s[..lu] else s
  }

  lemma NoUnderscoreKept(s: string)
    requires '_' !in s
    ensures RemoveTrailingNums(s) == s
  {
  }

  /** A non-digit anywhere after the last '_' keeps the whole name. */
  lemma NonDigitAfterLastUnderscoreKept(s: string, lu: nat, k: nat)
    requires lu < k < |s| && s[lu] == '_' && !IsDigit(s[k])
    requires forall j :: lu < j < |s| ==> s[j] != '_'
    ensures RemoveTrailingNums(s) == s
  {
    assert s[lu + 1..][k - lu - 1] == s[k];
  }

  /** A name followed by '_' and only digits (possibly none) loses exactly that suffix. */
  lemma DigitSuffixRemoved(p: string, d: string)
    requires AllDigits(d)
    ensures RemoveTrailingNums(p + "_" + d) == p
  {
    var s := p + "_" + d;
    assert s[|p|] == '_';
    assert forall k :: |p| < k < |s| ==> s[k] == d[k - |p| - 1] && s[k] != '_';
    assert LastIndexOf(s, '_') == Some(|p|);
    assert s[|p| + 1..] == d;
    assert s[..|p|] == p;
  }

  /** Conversely, the result is either the name itself or the name with a
      '_'-and-digits suffix removed. */
  lemma RemovedSuffixIsDigits(s: string)
    ensures var r := RemoveTrailingNums(s);
            r == s || (s == r + "_" + s[|r| + 1..] && AllDigits(s[|r| + 1..]))
  {
    match LastIndexOf(s, '_')
    case None =>
    case Some(lu) =>
      if AllDigits(s[lu + 1..]) {
        assert s == s[..lu] + "_" + s[lu + 1..];
      }
  }

  /** remove_trailing_nums as the macro runs it: find the last '_', then
      scan the characters after it and return the name unchanged at the
      first one that is not a digit. */
  method StripTrailingNums(s: string) returns (r: string)
    ensures r == RemoveTrailingNums(s)
  {
    var found := LastIndexOf(s, '_');
    if found.None? {
      return s;
    }
    var lu := found.value;
    var id := lu + 1;
    while id < |s|
      invariant lu + 1 <= id <= |s|
      invariant forall k :: lu + 1 <= k < id ==> IsDigit(s[k])
    {
      if !IsDigit(s[id]) {
        assert s[lu + 1..][id - lu - 1] == s[id];
        return s;
      }
      id := id + 1;
    }
    var tail := s[lu + 1..];
    assert forall k :: 0 <= k < |tail| ==> tail[k] == s[lu + 1 + k];
    r := s[..lu];
  }
}
