// Shared vocabulary of the paint-shop model: optional values (Python's None),
// the three stations, a record holding one value per station, and the
// sum and mean of a list of durations.
module Base {

  datatype Option<T> = None | Some(value: T)

  /** The three stations, in the order every car visits them. */
  datatype StationId = Cleaning | Primer | Painting

  /** One value per station. */
  datatype PerStation<T> = PerStation(cleaning: T, primer: T, painting: T)
  {
    function Get(k: StationId): T
    {
      match k
      case Cleaning => cleaning
      case Primer => primer
      case Painting => painting
    }

    function Set(k: StationId, v: T): (p: PerStation<T>)
      ensures p.Get(k) == v
      ensures forall k' :: k' != k ==> p.Get(k') == Get(k')
    {
      match k
      case Cleaning => this.(cleaning := v)
      case Primer => this.(primer := v)
      case Painting => this.(painting := v)
    }
  }

  /** Python's sum() over a list of durations, folded from the end so that an
      append adds exactly one term. */
  function Sum(s: seq<real>): real
  {
    if s == [] then 0.0 else Sum(s[..|s| - 1]) + s[|s| - 1]
  }

  lemma SumAppend(s: seq<real>, x: real)
    ensures Sum(s + [x]) == Sum(s) + x
  {
    assert (s + [x])[..|s|] == s;
  }

  /** Average of a list, 0 for the empty list (the guard the station metrics use). */
  function Mean(s: seq<real>): (r: real)
    ensures s == [] ==> r == 0.0
    ensures s != [] ==> r * (|s| as real) == Sum(s)
  {
    if |s| == 0 then 0.0 else Sum(s) / (|s| as real)
  }

  lemma {:induction false} SumAtLeast(s: seq<real>, lo: real)
    requires forall i :: 0 <= i < |s| ==> lo <= s[i]
    ensures lo * (|s| as real) <= Sum(s)
  {
    if s != [] {
      var p := s[..|s| - 1];
      forall i | 0 <= i < |p| ensures lo <= p[i] {
        assert p[i] == s[i];
      }
      SumAtLeast(p, lo);
      assert (|s| as real) == (|p| as real) + 1.0;
    }
  }

  lemma {:induction false} SumAtMost(s: seq<real>, hi: real)
    requires forall i :: 0 <= i < |s| ==> s[i] <= hi
    ensures Sum(s) <= hi * (|s| as real)
  {
    if s != [] {
      var p := s[..|s| - 1];
      forall i | 0 <= i < |p| ensures p[i] <= hi {
        assert p[i] == s[i];
      }
      SumAtMost(p, hi);
      assert (|s| as real) == (|p| as real) + 1.0;
    }
  }

  /** The mean of a non-empty list is at least any lower bound of its elements. */
  lemma MeanAtLeast(s: seq<real>, lo: real)
    requires s != []
    requires forall i :: 0 <= i < |s| ==> lo <= s[i]
    ensures lo <= Mean(s)
  {
    SumAtLeast(s, lo);
    assert Mean(s) * (|s| as real) == Sum(s);
  }

  /** The mean of a non-empty list lies between any lower and upper bound of
      its elements. */
  lemma MeanWithin(s: seq<real>, lo: real, hi: real)
    requires s != []
    requires forall i :: 0 <= i < |s| ==> lo <= s[i] <= hi
    ensures lo <= Mean(s) <= hi
  {
    MeanAtLeast(s, lo);
    SumAtMost(s, hi);
    assert Mean(s) * (|s| as real) == Sum(s);
  }

  predicate NoDups<T(==)>(s: seq<T>)
  {
    forall i, j :: 0 <= i < j < |s| ==> s[i] != s[j]
  }

  lemma NoDupsAppend<T>(s: seq<T>, x: T)
    requires NoDups(s) && x !in s
    ensures NoDups(s + [x])
  {
  }

  /** The list without its first occurrence of x (Python's list.remove,
      silently doing nothing when x is absent). */
  function RemoveFirst<T(==)>(s: seq<T>, x: T): (r: seq<T>)
    ensures x in s ==> |r| == |s| - 1
    ensures x !in s ==> r == s
    ensures forall y :: y in r ==> y in s
    ensures forall y :: y in s && y != x ==> y in r
    ensures NoDups(s) ==> NoDups(r) && x !in r
  {
    if s == [] then []
    else if s[0] == x then s[1..]
    else
      var t := RemoveFirst(s[1..], x);
      assert NoDups(s) ==> s[0] !in s[1..] && NoDups(s[1..]);
      [s[0]] + t
  }
}
