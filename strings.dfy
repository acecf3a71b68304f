/** String helpers shared by the name-handling code. */
module Strings {

  /** `pat` occurs in `s` as a contiguous substring (ROOT's TString::Contains,
      Python's `str.find(pat) != -1`); the empty pattern occurs in every string. */
  predicate Contains(s: string, pat: string)
  {
    exists i :: 0 <= i <= |s| && OccursAt(s, pat, i)
  }

  /** `pat` occurs in `s` starting at position `i`. */
  predicate OccursAt(s: string, pat: string, i: int)
  {
    0 <= i && i + |pat| <= |s| && s[i..i + |pat|] == pat
  }

  lemma EmptyPatternContained(s: string)
    ensures Contains(s, "")
  {
    assert OccursAt(s, "", 0);
  }

  lemma SelfContained(s: string)
    ensures Contains(s, s)
  {
    assert OccursAt(s, s, 0);
  }

  predicate IsDigit(c: char)
  {
    '0' <= c <= '9'
  }

  function DigitChar(d: nat): (c: char)
    requires d < 10
    ensures IsDigit(c)
  {
    "0123456789"[d]
  }

  /** Python's `str(n)` for a non-negative integer: its decimal digits. */
  function NatToString(n: nat): string
    decreases n
  {
    if n < 10 then [DigitChar(n)] else NatToString(n / 10) + [DigitChar(n % 10)]
  }

  /** The decimal digits of a number: at least one, all digits, no leading zero. */
  lemma {:induction false} NatToStringDigits(n: nat)
    ensures |NatToString(n)| >= 1
    ensures forall i :: 0 <= i < |NatToString(n)| ==> IsDigit(NatToString(n)[i])
    ensures n < 10 <==> |NatToString(n)| == 1
    ensures n >= 10 ==> NatToString(n)[0] != '0'
    decreases n
  {
    if n >= 10 {
      NatToStringDigits(n / 10);
    }
  }

  /** Different numbers have different decimal strings. */
  lemma {:induction false} NatToStringInjective(a: nat, b: nat)
    requires NatToString(a) == NatToString(b)
    ensures a == b
    decreases a
  {
    NatToStringDigits(a);
    NatToStringDigits(b);
    if a >= 10 && b >= 10 {
      var sa, sb := NatToString(a / 10), NatToString(b / 10);
      assert sa == NatToString(a)[..|NatToString(a)| - 1];
      assert sb == NatToString(b)[..|NatToString(b)| - 1];
      NatToStringInjective(a / 10, b / 10);
      DigitCharInjective(a % 10, b % 10);
    } else if a < 10 && b < 10 {
      DigitCharInjective(a, b);
    }
  }

  lemma DigitCharInjective(a: nat, b: nat)
    requires a < 10 && b < 10 && DigitChar(a) == DigitChar(b)
    ensures a == b
  {
  }

  /** Names made of one prefix and a number differ when the numbers do. */
  lemma PrefixedInjective(pre: string, a: nat, b: nat)
    requires pre + NatToString(a) == pre + NatToString(b)
    ensures a == b
  {
    assert NatToString(a) == (pre + NatToString(a))[|pre|..];
    assert NatToString(b) == (pre + NatToString(b))[|pre|..];
    NatToStringInjective(a, b);
  }

  /** Python's `str(i)` for any integer. */
  function IntToString(i: int): (s: string)
    ensures i >= 0 ==> s == NatToString(i)
    ensures i < 0 ==> |s| >= 2 && s[0] == '-'
  {
    if i >= 0 then NatToString(i) else "-" + NatToString(-i)
  }

  /** A pattern whose first character is nowhere in `s` does not occur in it. */
  lemma FirstCharAbsent(s: string, pat: string)
    requires |pat| > 0 && pat[0] !in s
    ensures !Contains(s, pat)
  {
  }

  /** A pattern whose first character occurs in `s` only at `k`, and which
      does not occur there, does not occur in `s`. */
  lemma FirstCharOnlyAt(s: string, pat: string, k: int)
    requires |pat| > 0 && !OccursAt(s, pat, k)
    requires forall i :: 0 <= i < |s| && s[i] == pat[0] ==> i == k
    ensures !Contains(s, pat)
  {
    forall i | 0 <= i <= |s| && i != k && i + |pat| <= |s|
      ensures !OccursAt(s, pat, i)
    {
      assert s[i..i + |pat|][0] == s[i];
    }
  }

  lemma PrefixOccurs(pre: string, rest: string)
    ensures OccursAt(pre + rest, pre, 0) && Contains(pre + rest, pre)
  {
    assert (pre + rest)[..|pre|] == pre;
    assert OccursAt(pre + rest, pre, 0);
  }

  lemma SuffixOccurs(front: string, suf: string)
    ensures OccursAt(front + suf, suf, |front|) && Contains(front + suf, suf)
  {
    assert (front + suf)[|front|..] == suf;
    assert OccursAt(front + suf, suf, |front|);
  }

  /** Python's `re.sub(pat, '', s)` for a pattern without special
      characters: the occurrences of `pat` found scanning left to right,
      without overlap, removed. */
  function RemoveAll(s: string, pat: string): (r: string)
    requires |pat| > 0
    ensures |r| <= |s|
    decreases |s|
  {
    if |s| < |pat| then s
    else if s[..|pat|] == pat then RemoveAll(s[|pat|..], pat)
    else [s[0]] + RemoveAll(s[1..], pat)
  }

  /** A string without the pattern comes back unchanged. */
  lemma {:induction false} RemoveAbsent(s: string, pat: string)
    requires |pat| > 0 && !Contains(s, pat)
    ensures RemoveAll(s, pat) == s
    decreases |s|
  {
    if |s| >= |pat| {
      assert !OccursAt(s, pat, 0);
      assert !Contains(s[1..], pat) by {
        forall i | 0 <= i <= |s[1..]|
          ensures !OccursAt(s[1..], pat, i)
        {
          assert !OccursAt(s, pat, i + 1);
          if i + |pat| <= |s[1..]| {
            assert s[1..][i..i + |pat|] == s[i + 1..i + 1 + |pat|];
          }
        }
      }
      RemoveAbsent(s[1..], pat);
      assert s == [s[0]] + s[1..];
    }
  }

  /** A leading occurrence is dropped: `re.sub('vol', '', 'vol' + rest)`
      is `rest` when `rest` has no `vol`. */
  lemma RemovePrefix(pat: string, rest: string)
    requires |pat| > 0 && !Contains(rest, pat)
    ensures RemoveAll(pat + rest, pat) == rest
  {
    assert (pat + rest)[..|pat|] == pat;
    assert (pat + rest)[|pat|..] == rest;
    RemoveAbsent(rest, pat);
  }
}
