/** Frequency tables as the dashboard builds them: `reduce` over the values
    with `acc[key] = (acc[key] || 0) + 1` into a plain object, whose keys
    keep the order in which they were first added, and the "top" entry
    picked by a stable descending sort on the counts.

    The object is modelled as a sequence of (key, count) entries in key
    insertion order. That is the order `Object.keys`, `Object.values` and
    `Object.entries` report as long as no key looks like an array index;
    category values and day labels are assumed never to. */
module FrequencyTable {
  import opened Records

  type Table = seq<(string, int)>

  function Keys(t: Table): (ks: seq<string>)
    ensures |ks| == |t| && forall i :: 0 <= i < |t| ==> ks[i] == t[i].0
  {
    seq(|t|, i requires 0 <= i < |t| => t[i].0)
  }

  function Counts(t: Table): (cs: seq<int>)
    ensures |cs| == |t| && forall i :: 0 <= i < |t| ==> cs[i] == t[i].1
  {
    seq(|t|, i requires 0 <= i < |t| => t[i].1)
  }

  predicate NoDuplicates(s: seq<string>)
  {
    forall i, j :: 0 <= i < j < |s| ==> s[i] != s[j]
  }

  /** The distinct values of `s`, each once, in the order of their first
      occurrence. */
  function Distinct(s: seq<string>): (d: seq<string>)
    ensures forall x :: x in d <==> x in s
    ensures NoDuplicates(d)
  {
    if s == [] then []
    else
      var p, x := s[..|s| - 1], s[|s| - 1];
      assert s == p + [x];
      var dp := Distinct(p);
      if x in dp then dp else dp + [x]
  }

  /** The position of the first occurrence of `x` in `s`. */
  function FirstIndex(s: seq<string>, x: string): (i: nat)
    requires x in s
    ensures i < |s| && s[i] == x && x !in s[..i]
  {
    if s[0] == x then 0 else 1 + FirstIndex(s[1..], x)
  }

  lemma {:induction false} FirstIndexOfPrefix(p: seq<string>, x: string, y: string)
    requires y in p
    ensures FirstIndex(p + [x], y) == FirstIndex(p, y)
  {
    if p[0] != y {
      assert (p + [x])[1..] == p[1..] + [x];
      FirstIndexOfPrefix(p[1..], x, y);
    }
  }

  /** `Distinct` lists the values exactly in first-occurrence order. */
  lemma {:induction false} DistinctFirstSeenOrder(s: seq<string>)
    ensures forall i, j :: 0 <= i < j < |Distinct(s)| ==>
      FirstIndex(s, Distinct(s)[i]) < FirstIndex(s, Distinct(s)[j])
  {
    if s != [] {
      var p, x := s[..|s| - 1], s[|s| - 1];
      assert s == p + [x];
      DistinctFirstSeenOrder(p);
      var dp, d := Distinct(p), Distinct(s);
      forall y | y in p
        ensures FirstIndex(s, y) == FirstIndex(p, y)
      {
        FirstIndexOfPrefix(p, x, y);
      }
      if x !in dp {
        assert FirstIndex(s, x) == |p| by {
          assert forall m :: 0 <= m < |p| ==> s[m] == p[m];
        }
        forall i, j | 0 <= i < j < |d|
          ensures FirstIndex(s, d[i]) < FirstIndex(s, d[j])
        {
          assert d[i] == dp[i] && d[i] in p;
          if j < |dp| {
            assert d[j] == dp[j] && d[j] in p;
          }
        }
      } else {
        forall i, j | 0 <= i < j < |d|
          ensures FirstIndex(s, d[i]) < FirstIndex(s, d[j])
        {
          assert d[i] in p && d[j] in p;
        }
      }
    }
  }

  /** The table the counting `reduce` is meant to produce: every distinct
      value, in first-seen order, paired with its number of occurrences. */
  function Tally(s: seq<string>): Table
  {
    var d := Distinct(s);
    seq(|d|, i requires 0 <= i < |d| => (d[i], multiset(s)[d[i]]))
  }

  /** What one more value does to the table: a new key is appended with
      count 1, a known key's count goes up by one in place. */
  lemma TallyStep(p: seq<string>, x: string)
    ensures x !in p ==> Tally(p + [x]) == Tally(p) + [(x, 1)]
    ensures forall j :: 0 <= j < |Tally(p)| && Tally(p)[j].0 == x ==>
      Tally(p + [x]) == Tally(p)[j := (x, Tally(p)[j].1 + 1)]
  {
    var s := p + [x];
    assert s[..|s| - 1] == p;
    assert multiset(s) == multiset(p) + multiset{x};
  }

  /** The counting loop of `updateDashboard`: for each value, look its key
      up in the table and bump its count, or add it with count 1. */
  method CountBy(s: seq<string>) returns (t: Table)
    ensures t == Tally(s)
    ensures Keys(t) == Distinct(s)
    ensures forall i :: 0 <= i < |t| ==> t[i].1 == multiset(s)[t[i].0]
  {
    t := [];
    var n := 0;
    while n < |s|
      invariant n <= |s|
      invariant t == Tally(s[..n])
    {
      var key := s[n];
      var j := 0;
      while j < |t| && t[j].0 != key
        invariant j <= |t|
        invariant forall k :: 0 <= k < j ==> t[k].0 != key
      {
        j := j + 1;
      }
      TallyStep(s[..n], key);
      assert s[..n + 1] == s[..n] + [key];
      if j < |t| {
        t := t[j := (key, t[j].1 + 1)];
      } else {
        assert forall k :: 0 <= k < |t| ==> t[k].0 == Distinct(s[..n])[k];
        t := t + [(key, 1)];
      }
      n := n + 1;
    }
    assert s[..n] == s;
  }

  /** The sum of the counts. */
  function Total(t: Table): int
  {
    if t == [] then 0 else Total(t[..|t| - 1]) + t[|t| - 1].1
  }

  lemma {:induction false} TotalUpdate(t: Table, j: nat, e: (string, int))
    requires j < |t|
    ensures Total(t[j := e]) == Total(t) - t[j].1 + e.1
  {
    var u := t[j := e];
    if j < |t| - 1 {
      assert u[..|u| - 1] == t[..|t| - 1][j := e];
      TotalUpdate(t[..|t| - 1], j, e);
    } else {
      assert u[..|u| - 1] == t[..|t| - 1];
    }
  }

  /** The counts of a table add up to the number of values counted. */
  lemma {:induction false} TallySum(s: seq<string>)
    ensures Total(Tally(s)) == |s|
  {
    if s != [] {
      var p, x := s[..|s| - 1], s[|s| - 1];
      assert s == p + [x];
      TallySum(p);
      TallyStep(p, x);
      var t := Tally(p);
      if x in p {
        var j :| 0 <= j < |Distinct(p)| && Distinct(p)[j] == x;
        TotalUpdate(t, j, (x, t[j].1 + 1));
      } else {
        assert (t + [(x, 1)])[..|t|] == t;
      }
    }
  }

  /** Places `e` before the first entry whose count is not larger; an entry
      with an equal count that came later in the table stays behind it. */
  function InsertByCount(e: (string, int), s: Table): (r: Table)
    ensures multiset(r) == multiset(s) + multiset{e}
  {
    if s == [] || s[0].1 <= e.1 then [e] + s
    else
      assert s == [s[0]] + s[1..];
      [s[0]] + InsertByCount(e, s[1..])
  }

  predicate DescendingByCount(s: Table)
  {
    forall i, j :: 0 <= i < j < |s| ==> s[i].1 >= s[j].1
  }

  /** `entries.sort((a, b) => b[1] - a[1])`: a stable sort by descending
      count, written as an insertion sort. It yields the same entries,
      ordered by descending count. */
  function SortByCount(t: Table): (sorted: Table)
    ensures multiset(sorted) == multiset(t)
    ensures DescendingByCount(sorted)
  {
    if t == [] then []
    else
      assert t == [t[0]] + t[1..];
      InsertByCountSorted(t[0], SortByCount(t[1..]));
      InsertByCount(t[0], SortByCount(t[1..]))
  }

  lemma {:induction false} InsertByCountSorted(e: (string, int), s: Table)
    requires DescendingByCount(s)
    ensures DescendingByCount(InsertByCount(e, s))
  {
    if s != [] && s[0].1 > e.1 {
      InsertByCountSorted(e, s[1..]);
      var r := InsertByCount(e, s[1..]);
      forall k | 0 <= k < |r|
        ensures r[k].1 <= s[0].1
      {
        assert r[k] in multiset(r);
        assert r[k] in s[1..] || r[k] == e;
      }
    }
  }

  /** The position of the first entry holding the largest count. */
  function FirstMaxIndex(t: Table): (i: nat)
    requires t != []
    ensures i < |t|
    ensures forall j :: 0 <= j < |t| ==> t[j].1 <= t[i].1
    ensures forall j :: 0 <= j < i ==> t[j].1 < t[i].1
  {
    if |t| == 1 then 0
    else
      var k := FirstMaxIndex(t[1..]) + 1;
      if t[0].1 >= t[k].1 then 0 else k
  }

  /** Because the sort is stable, its first entry is the earliest entry
      with the largest count. */
  lemma {:induction false} SortHeadIsFirstMax(t: Table)
    requires t != []
    ensures |SortByCount(t)| == |t|
    ensures SortByCount(t)[0] == t[FirstMaxIndex(t)]
  {
    assert |multiset(SortByCount(t))| == |multiset(t)|;
    if |t| > 1 {
      SortHeadIsFirstMax(t[1..]);
    }
  }

  /** `Object.entries(counts).sort(...)[0]`: nothing for an empty table,
      otherwise the earliest entry with the largest count. */
  function Top(t: Table): (r: Option<(string, int)>)
    ensures r == None <==> t == []
    ensures t != [] ==> r == Some(t[FirstMaxIndex(t)])
  {
    var sorted := SortByCount(t);
    if t == [] then None
    else
      SortHeadIsFirstMax(t);
      Some(sorted[0])
  }

  /** The text shown for the top entry: its key, or "-" when there is none. */
  function TopLabel(t: Table): (shown: string)
    ensures t == [] ==> shown == "-"
    ensures t != [] ==> shown == t[FirstMaxIndex(t)].0
  {
    match Top(t)
    case None => "-"
    case Some(e) => e.0
  }

  /** `top` occurs in `s`, no value occurs more often, and among the values
      occurring as often it occurs first. */
  ghost predicate MostFrequentFirst(top: string, s: seq<string>)
  {
    && top in s
    && (forall y :: y in s ==> multiset(s)[y] <= multiset(s)[top])
    && (forall y :: y in s && multiset(s)[y] == multiset(s)[top] ==>
          FirstIndex(s, top) <= FirstIndex(s, y))
  }

  /** The top shown for a tally is the earliest-seen value among those
      occurring most often. */
  lemma TopOfTally(s: seq<string>)
    requires s != []
    ensures MostFrequentFirst(TopLabel(Tally(s)), s)
  {
    var t, d := Tally(s), Distinct(s);
    assert s[0] in d;
    var m := FirstMaxIndex(t);
    var top := t[m].0;
    DistinctFirstSeenOrder(s);
    forall y | y in s
      ensures multiset(s)[y] <= multiset(s)[top]
      ensures multiset(s)[y] == multiset(s)[top] ==> FirstIndex(s, top) <= FirstIndex(s, y)
    {
      var j :| 0 <= j < |d| && d[j] == y;
      assert t[j].1 == multiset(s)[y];
      if j < m {
        assert t[j].1 < t[m].1;
      }
    }
  }
}
