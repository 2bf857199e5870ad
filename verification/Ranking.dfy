/** Sorting by rank, and the median that rests on it. */
module Ranking {
  import opened Prelude

  predicate Descending(s: seq<real>) {
    forall i, j :: 0 <= i < j < |s| ==> s[i] >= s[j]
  }

  /** Before the first value that does not outrank it. */
  function Insert(x: real, s: seq<real>): (t: seq<real>)
    ensures |t| == |s| + 1
  {
    if |s| == 0 then [x]
    else if x >= s[0] then [x] + s
    else [s[0]] + Insert(x, s[1..])
  }

  lemma {:induction false} InsertKeepsValues(x: real, s: seq<real>)
    ensures multiset(Insert(x, s)) == multiset{x} + multiset(s)
    decreases |s|
  {
    if |s| == 0 {
    } else {
      assert s == [s[0]] + s[1..];
      InsertKeepsValues(x, s[1..]);
    }
  }

  lemma {:induction false} InsertKeepsRank(x: real, s: seq<real>)
    requires Descending(s)
    ensures Descending(Insert(x, s))
    decreases |s|
  {
    if |s| == 0 || x >= s[0] {
    } else {
      var rest := Insert(x, s[1..]);
      InsertKeepsRank(x, s[1..]);
      InsertKeepsValues(x, s[1..]);
      forall i | 0 <= i < |rest|
        ensures s[0] >= rest[i]
      {
        assert rest[i] in multiset(rest);
      }
    }
  }

  /** Largest first. */
  function Ranked(s: seq<real>): (t: seq<real>)
    ensures multiset(t) == multiset(s)
    ensures Descending(t)
    ensures |t| == |s|
  {
    if |s| == 0 then []
    else
      assert s == [s[0]] + s[1..];
      InsertKeepsValues(s[0], Ranked(s[1..]));
      InsertKeepsRank(s[0], Ranked(s[1..]));
      Insert(s[0], Ranked(s[1..]))
  }

  /** The middle value of the values in order, or the mean of the middle two. */
  ghost predicate IsMedian(s: seq<real>, m: real)
    requires |s| > 0
  {
    exists t: seq<real> ::
      Descending(t) && multiset(t) == multiset(s) && |t| == |s| && 2.0 * m == t[(|t| - 1) / 2] + t[|t| / 2]
  }

  function Middle(t: seq<real>): real
    requires |t| > 0
  {
    if |t| % 2 == 1 then t[|t| / 2] else (t[|t| / 2 - 1] + t[|t| / 2]) / 2.0
  }

  function Median(s: seq<real>): (m: real)
    requires |s| > 0
    ensures IsMedian(s, m)
  {
    Middle(Ranked(s))
  }

  /** The largest value, or zero when there is none. */
  method Largest(s: seq<real>) returns (m: real)
    ensures |s| == 0 ==> m == 0.0
    ensures |s| > 0 ==> m in s && forall i :: 0 <= i < |s| ==> s[i] <= m
  {
    if |s| == 0 { return 0.0; }
    m := s[0];
    for n := 1 to |s|
      invariant m in s && forall i :: 0 <= i < n ==> s[i] <= m
    {
      m := Max(m, s[n]);
    }
  }
}
