/** Types and a list function shared by the models. */
module Common {

  datatype Option<+T> = None | Some(value: T)

  /** What a repository call returns: a value, or the business-rule refusal after
      which the caller's transaction is rolled back. */
  datatype Result<+T> = Ok(value: T) | Refused

  predicate NoRepeats<T(==)>(s: seq<T>) {
    forall i, j :: 0 <= i < j < |s| ==> s[i] != s[j]
  }

  /** The first occurrences, in order. */
  function Distinct<T(==,!new)>(s: seq<T>): (r: seq<T>)
    ensures forall x :: x in r <==> x in s
    ensures forall i, j :: 0 <= i < j < |r| ==> r[i] != r[j]
  {
    if s == [] then []
    else
      var before := Distinct(s[..|s| - 1]);
      var x := s[|s| - 1];
      assert s == s[..|s| - 1] + [x];
      if x in before then before else before + [x]
  }

  /** The positions that satisfy a property, and how their number grows. */
  function Positions<T>(s: seq<T>, p: T -> bool): set<nat> {
    set i: nat | i < |s| && p(s[i])
  }

  lemma OneMorePosition<T>(s: seq<T>, p: T -> bool)
    requires s != []
    ensures var n := |s| - 1; |Positions(s, p)| == |Positions(s[..n], p)| + (if p(s[n]) then 1 else 0)
  {
    var n := |s| - 1;
    assert Positions(s, p) == Positions(s[..n], p) + (if p(s[n]) then {n} else {});
    assert n !in Positions(s[..n], p);
  }

  function PositionsBelow(n: nat, p: nat -> bool): set<nat> {
    set i: nat | i < n && p(i)
  }

  lemma OneMorePositionBelow(n: nat, p: nat -> bool)
    ensures |PositionsBelow(n + 1, p)| == |PositionsBelow(n, p)| + (if p(n) then 1 else 0)
  {
    assert PositionsBelow(n + 1, p) == PositionsBelow(n, p) + (if p(n) then {n} else {});
    assert n !in PositionsBelow(n, p);
  }

  /** The positions below `n` that satisfy a property, in order. */
  function PositionsUpTo(n: nat, p: nat -> bool): (r: seq<nat>)
    ensures forall k :: 0 <= k < |r| ==> r[k] < n && p(r[k])
    ensures forall j, k :: 0 <= j < k < |r| ==> r[j] < r[k]
  {
    if n == 0 then [] else PositionsUpTo(n - 1, p) + (if p(n - 1) then [n - 1] else [])
  }

  lemma {:induction false} AllUpTo(n: nat, p: nat -> bool, i: nat)
    requires i < n && p(i)
    ensures i in PositionsUpTo(n, p)
  {
    if i < n - 1 {
      AllUpTo(n - 1, p, i);
    }
  }
}
