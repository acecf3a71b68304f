/** Python dictionaries of numbers as the protodune builders use them, and
    Python's `int()` on a float. */
module Dicts {
  import opened Wrappers

  /** `d[k]` where `d` may be None: subscripting None is a TypeError, a
      missing key a KeyError. */
  function Get(d: Option<map<string, real>>, k: string): (r: Result<real>)
    ensures d.None? ==> r.Err? && r.failure.TypeError?
    ensures d.Some? && k !in d.value ==> r == Err(KeyError(k))
    ensures r.Ok? <==> d.Some? && k in d.value
    ensures r.Ok? ==> r.value == d.value[k]
  {
    if d.None? then Err(TypeError("'NoneType' object is not subscriptable"))
    else if k in d.value then Ok(d.value[k])
    else Err(KeyError(k))
  }

  /** `int(x)`: truncation toward zero. */
  function Trunc(x: real): (n: int)
    ensures x >= 0.0 ==> n >= 0 && n as real <= x < n as real + 1.0
    ensures x < 0.0 ==> n <= 0 && n as real - 1.0 < x <= n as real
  {
    if x >= 0.0 then x.Floor else -((-x).Floor)
  }

  /** `int(a / s)` for a positive spacing `s` counts the whole spacings that
      fit in a non-negative length `a`. */
  lemma TruncCountsSpacings(a: real, s: real)
    requires a >= 0.0 && s > 0.0
    ensures var n := Trunc(a / s); n >= 0 && n as real * s <= a < (n as real + 1.0) * s
  {
    var q := a / s;
    assert q * s == a;
    Quotient(a, s, q);
    var n := Trunc(q);
    assert n as real <= q < n as real + 1.0;
    Between(q, s, n as real, n as real + 1.0);
    assert q * s < (n as real + 1.0) * s;
    assert a < (n as real + 1.0) * s;
  }

  lemma Quotient(a: real, s: real, q: real)
    requires a >= 0.0 && s > 0.0 && q * s == a
    ensures q >= 0.0
  {
  }

  lemma Between(q: real, s: real, lo: real, hi: real)
    requires s > 0.0 && lo <= q < hi
    ensures lo * s <= q * s < hi * s
  {
  }
}
