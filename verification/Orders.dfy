// Facts about sequences of publish numbers, shared by the broadcaster and the watchers.
module Orders {

  function Last<T>(s: seq<T>): T
    requires s != []
  {
    s[|s| - 1]
  }

  ghost predicate Increasing(s: seq<nat>) {
    |s| < 2 || (s[|s| - 2] < Last(s) && Increasing(s[..|s| - 1]))
  }

  // Increasing numbers from lo - 1 up to, but not including, hi.
  ghost predicate Within(s: seq<nat>, lo: nat, hi: nat) {
    Increasing(s) && (s != [] ==> lo <= s[0] + 1 && Last(s) < hi)
  }

  // lo, lo + 1, ..., hi - 1
  function Range(lo: nat, hi: nat): (r: seq<nat>)
    requires lo <= hi
    ensures |r| == hi - lo
    ensures forall i :: 0 <= i < |r| ==> r[i] == lo + i
  {
    seq(hi - lo, i requires 0 <= i => lo + i)
  }

  lemma {:induction false} IncreasingAt(s: seq<nat>, i: nat, j: nat)
    requires Increasing(s) && i < j < |s|
    ensures s[i] < s[j]
  {
    if j < |s| - 1 {
      IncreasingAt(s[..|s| - 1], i, j);
    } else if i < j - 1 {
      IncreasingAt(s[..|s| - 1], i, j - 1);
    }
  }

  lemma IncreasingEverywhere(s: seq<nat>)
    requires Increasing(s)
    ensures forall i, j :: 0 <= i < j < |s| ==> s[i] < s[j]
  {
    forall i, j | 0 <= i < j < |s| ensures s[i] < s[j] {
      IncreasingAt(s, i, j);
    }
  }

  lemma {:induction false} IncreasingFrom(s: seq<nat>)
    requires forall i, j :: 0 <= i < j < |s| ==> s[i] < s[j]
    ensures Increasing(s)
  {
    if |s| >= 2 {
      IncreasingFrom(s[..|s| - 1]);
    }
  }

  // Deleting one number keeps the rest in order.
  lemma WithinDelete(s: seq<nat>, k: nat, lo: nat, hi: nat)
    requires Within(s, lo, hi) && k < |s|
    ensures Within(s[..k] + s[k + 1..], lo, hi)
  {
    IncreasingEverywhere(s);
    IncreasingFrom(s[..k] + s[k + 1..]);
  }

  lemma WithinEverywhere(s: seq<nat>, lo: nat, hi: nat)
    requires Within(s, lo, hi)
    ensures forall i :: 0 <= i < |s| ==> lo <= s[i] + 1 && s[i] < hi
  {
    IncreasingEverywhere(s);
  }
}
