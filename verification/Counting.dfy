/** Weighted counts over sequences, used for conservation arguments. */
module Counting {

  function Total<T>(f: T -> nat, s: seq<T>): nat {
    if |s| == 0 then 0 else Total(f, s[..|s| - 1]) + f(s[|s| - 1])
  }

  lemma {:induction false} TotalUpdate<T>(f: T -> nat, s: seq<T>, i: nat, x: T)
    requires i < |s|
    ensures Total(f, s[i := x]) + f(s[i]) == Total(f, s) + f(x)
  {
    var last := |s| - 1;
    if i == last {
      assert s[i := x][..last] == s[..last];
    } else {
      assert s[i := x][..last] == s[..last][i := x];
      TotalUpdate(f, s[..last], i, x);
    }
  }

  lemma {:induction false} TotalAppend<T>(f: T -> nat, s: seq<T>, x: T)
    ensures Total(f, s + [x]) == Total(f, s) + f(x)
  {
    assert (s + [x])[..|s|] == s;
  }

  lemma {:induction false} TotalAtLeast<T>(f: T -> nat, s: seq<T>, i: nat)
    requires i < |s|
    ensures f(s[i]) <= Total(f, s)
  {
    var last := |s| - 1;
    if i < last {
      TotalAtLeast(f, s[..last], i);
    }
  }

  lemma {:induction false} TotalAtMost<T>(f: T -> nat, s: seq<T>, bound: nat)
    requires forall i :: 0 <= i < |s| ==> f(s[i]) <= bound
    ensures Total(f, s) <= bound * |s|
  {
    if |s| > 0 {
      TotalAtMost(f, s[..|s| - 1], bound);
    }
  }

  lemma {:induction false} TotalZero<T>(f: T -> nat, s: seq<T>)
    ensures Total(f, s) == 0 <==> forall i :: 0 <= i < |s| ==> f(s[i]) == 0
  {
    if |s| > 0 {
      var last := |s| - 1;
      TotalZero(f, s[..last]);
      assert forall i :: 0 <= i < |s| ==> (if i < last then s[i] == s[..last][i] else i == last);
    }
  }
}
