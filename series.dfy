/**
 * Numeric series as the reports build them: a list of zeros (`[0] * n`)
 * updated by `series[i] += amount`, and `sum(series)`. Amounts are exact reals.
 */
module Series {

  function Zeros(n: nat): (s: seq<real>)
    ensures |s| == n && forall i :: 0 <= i < n ==> s[i] == 0.0
  {
    seq(n, _ => 0.0)
  }

  /** `s[i] += v`. */
  function AddAt(s: seq<real>, i: int, v: real): (r: seq<real>)
    requires 0 <= i < |s|
    ensures |r| == |s| && r[i] == s[i] + v
    ensures forall j :: 0 <= j < |s| && j != i ==> r[j] == s[j]
  {
    s[i := s[i] + v]
  }

  /** `sum(s)`. */
  function Sum(s: seq<real>): real {
    if s == [] then 0.0 else Sum(s[..|s| - 1]) + s[|s| - 1]
  }

  lemma {:induction false} SumZeros(n: nat)
    ensures Sum(Zeros(n)) == 0.0
  {
    if n > 0 {
      assert Zeros(n)[..n - 1] == Zeros(n - 1);
      SumZeros(n - 1);
    }
  }

  /** Adding v at one index adds v to the sum: nothing is lost or counted twice. */
  lemma {:induction false} SumAddAt(s: seq<real>, i: int, v: real)
    requires 0 <= i < |s|
    ensures Sum(AddAt(s, i, v)) == Sum(s) + v
  {
    var r := AddAt(s, i, v);
    var n := |s| - 1;
    if i == n {
      assert r[..n] == s[..n];
    } else {
      assert r[..n] == AddAt(s[..n], i, v);
      SumAddAt(s[..n], i, v);
    }
  }
}
