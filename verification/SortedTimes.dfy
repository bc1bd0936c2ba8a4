/** Python's `sorted` over a set of timestamps. */
module SortedTimes {
  import opened Engine

  function InsertSorted(xs: seq<int>, t: int): (ys: seq<int>)
    requires Increasing(xs) && t !in xs
    ensures Increasing(ys)
    ensures forall x :: x in ys <==> x == t || x in xs
  {
    if xs == [] then [t]
    else if t < xs[0] then [t] + xs
    else
      assert forall x :: x in xs <==> x == xs[0] || x in xs[1..] by { assert xs == [xs[0]] + xs[1..]; }
      var rest := InsertSorted(xs[1..], t);
      assert forall i :: 0 <= i < |rest| ==> xs[0] < rest[i] by {
        assert forall i :: 0 <= i < |rest| ==> rest[i] in rest;
      }
      [xs[0]] + rest
  }

  lemma HasMember(times: set<int>)
    requires times != {}
    ensures exists t :: t in times
  {
    assert (forall t :: t !in times) ==> times == {};
  }

  method SortTimes(times: set<int>) returns (sorted: seq<int>)
    ensures Increasing(sorted)
    ensures forall t :: t in sorted <==> t in times
  {
    sorted := [];
    var rest := times;
    while rest != {}
      invariant rest <= times && Increasing(sorted)
      invariant forall t :: t in sorted <==> t in times - rest
      decreases rest
    {
      HasMember(rest);
      var t :| t in rest;
      sorted := InsertSorted(sorted, t);
      rest := rest - {t};
    }
  }
}
