/** The order statistics of the risk calculation: median, mean and maximum of a
    non-empty list of scores, as exact reals. */
module Stats {
  import opened Sequences

  ghost predicate Sorted(s: seq<real>) {
    forall i, j :: 0 <= i < j < |s| ==> s[i] <= s[j]
  }

  /** Pointwise order of two lists. */
  ghost predicate Below(s: seq<real>, t: seq<real>) {
    |s| == |t| && forall i :: 0 <= i < |s| ==> s[i] <= t[i]
  }

  function Insert(x: real, s: seq<real>): (r: seq<real>)
    ensures |r| == |s| + 1
  {
    if s == [] then [x]
    else if x <= s[0] then [x] + s
    else [s[0]] + Insert(x, s[1..])
  }

  function SortedCopy(s: seq<real>): (r: seq<real>)
    ensures |r| == |s|
  {
    if s == [] then [] else Insert(s[0], SortedCopy(s[1..]))
  }

  function Median(s: seq<real>): real
    requires |s| > 0
  {
    Middle(SortedCopy(s))
  }

  function Middle(c: seq<real>): real
    requires |c| > 0
  {
    if |c| % 2 == 0 then (c[|c| / 2 - 1] + c[|c| / 2]) / 2.0 else c[|c| / 2]
  }

  function Sum(s: seq<real>): real {
    if s == [] then 0.0 else s[0] + Sum(s[1..])
  }

  function Mean(s: seq<real>): real
    requires |s| > 0
  {
    Sum(s) / (|s| as real)
  }

  function Max(s: seq<real>): (r: real)
    requires |s| > 0
    ensures r in s
    ensures forall x :: x in s ==> x <= r
  {
    if |s| == 1 then s[0]
    else
      assert s == [s[0]] + s[1..];
      var m := Max(s[1..]);
      if s[0] > m then s[0] else m
  }

  /* ---------- sorting ---------- */

  lemma {:induction false} InsertContents(x: real, s: seq<real>)
    ensures multiset(Insert(x, s)) == multiset(s) + multiset{x}
  {
    if s != [] && x > s[0] {
      InsertContents(x, s[1..]);
      assert s == [s[0]] + s[1..];
    }
  }

  lemma {:induction false} SortedCopyContents(s: seq<real>)
    ensures multiset(SortedCopy(s)) == multiset(s)
  {
    if s != [] {
      SortedCopyContents(s[1..]);
      InsertContents(s[0], SortedCopy(s[1..]));
      assert s == [s[0]] + s[1..];
    }
  }

  lemma InsertFirst(x: real, s: seq<real>)
    ensures Insert(x, s)[0] == if s == [] || x <= s[0] then x else s[0]
  {
  }

  lemma {:induction false} InsertSorted(x: real, s: seq<real>)
    requires Sorted(s)
    ensures Sorted(Insert(x, s))
  {
    if s != [] && s[0] < x {
      InsertSorted(x, s[1..]);
      var r := Insert(x, s[1..]);
      InsertFirst(x, s[1..]);
    }
  }

  lemma {:induction false} SortedCopySorted(s: seq<real>)
    ensures Sorted(SortedCopy(s))
  {
    if s != [] {
      SortedCopySorted(s[1..]);
      InsertSorted(s[0], SortedCopy(s[1..]));
    }
  }

  /** A multiset has only one sorted listing. */
  lemma {:induction false} SortedUnique(s: seq<real>, t: seq<real>)
    requires Sorted(s) && Sorted(t) && multiset(s) == multiset(t)
    ensures s == t
  {
    SameMultiset(s, t);
    if s != [] {
      assert s[0] in t && t[0] in s;
      assert s[0] == t[0];
      DropFirst(s);
      DropFirst(t);
      SortedUnique(s[1..], t[1..]);
      assert s == [s[0]] + s[1..] && t == [t[0]] + t[1..];
    }
  }

  /** The median is the middle of any sorted listing of the scores. */
  lemma MedianOfSorted(s: seq<real>, c: seq<real>)
    requires |s| > 0 && Sorted(c) && multiset(c) == multiset(s)
    ensures |c| == |s| && Median(s) == Middle(c)
  {
    SortedCopySorted(s);
    SortedCopyContents(s);
    SortedUnique(c, SortedCopy(s));
  }

  /* ---------- the statistics depend on the multiset of scores only ---------- */

  lemma {:induction false} SumConcat(s: seq<real>, t: seq<real>)
    ensures Sum(s + t) == Sum(s) + Sum(t)
  {
    if s == [] {
      assert s + t == t;
    } else {
      assert (s + t)[1..] == s[1..] + t;
      SumConcat(s[1..], t);
    }
  }

  lemma {:induction false} SumPermutation(s: seq<real>, t: seq<real>)
    requires multiset(s) == multiset(t)
    ensures Sum(s) == Sum(t)
  {
    if s == [] {
      SameMultiset(s, t);
    } else {
      var k := TakeFirst(s, t);
      SumPermutation(s[1..], t[..k] + t[k + 1..]);
      SumConcat(t[..k], t[k + 1..]);
      SumConcat(t[..k], [t[k]] + t[k + 1..]);
      assert t == t[..k] + ([t[k]] + t[k + 1..]);
    }
  }

  lemma PermutationInvariant(s: seq<real>, t: seq<real>)
    requires |s| > 0 && multiset(s) == multiset(t)
    ensures |t| > 0 && Median(s) == Median(t) && Mean(s) == Mean(t) && Max(s) == Max(t)
  {
    SameMultiset(s, t);
    SortedCopySorted(t);
    SortedCopyContents(t);
    MedianOfSorted(s, SortedCopy(t));
    SumPermutation(s, t);
    assert Max(s) in t && Max(t) in s;
  }

  /* ---------- monotonicity ---------- */

  lemma {:induction false} InsertMonotone(x: real, s: seq<real>, y: real, t: seq<real>)
    requires x <= y && Below(s, t) && Sorted(s) && Sorted(t)
    ensures Below(Insert(x, s), Insert(y, t))
    decreases |s|
  {
    if s != [] {
      var r, u := Insert(x, s), Insert(y, t);
      if x <= s[0] && y > t[0] {
        InsertMonotone(s[0], s[1..], y, t[1..]);
        assert r == [x] + s;
        assert Insert(s[0], s[1..]) == s by {
          if |s| > 1 { assert s[0] <= s[1]; }
        }
      } else if x > s[0] && y <= t[0] {
        InsertMonotone(x, s[1..], t[0], t[1..]);
        assert Insert(t[0], t[1..]) == t by {
          if |t| > 1 { assert t[0] <= t[1]; }
        }
      } else if x > s[0] {
        InsertMonotone(x, s[1..], y, t[1..]);
      }
    }
  }

  lemma {:induction false} SortMonotone(s: seq<real>, t: seq<real>)
    requires Below(s, t)
    ensures Below(SortedCopy(s), SortedCopy(t))
  {
    if s != [] {
      SortMonotone(s[1..], t[1..]);
      SortedCopySorted(s[1..]);
      SortedCopySorted(t[1..]);
      InsertMonotone(s[0], SortedCopy(s[1..]), t[0], SortedCopy(t[1..]));
    }
  }

  lemma {:induction false} SumMonotone(s: seq<real>, t: seq<real>)
    requires Below(s, t)
    ensures Sum(s) <= Sum(t)
  {
    if s != [] {
      SumMonotone(s[1..], t[1..]);
    }
  }

  lemma DivideMonotone(a: real, b: real, n: real)
    requires a <= b && n > 0.0
    ensures a / n <= b / n
  {
  }

  /** Raising scores lowers none of the three statistics. */
  lemma StatisticsMonotone(s: seq<real>, t: seq<real>)
    requires |s| > 0 && Below(s, t)
    ensures Median(s) <= Median(t) && Mean(s) <= Mean(t) && Max(s) <= Max(t)
  {
    SortMonotone(s, t);
    SumMonotone(s, t);
    DivideMonotone(Sum(s), Sum(t), |s| as real);
    var i :| 0 <= i < |s| && s[i] == Max(s);
    assert t[i] in t;
  }

  /** One more score never lowers the maximum. */
  lemma AppendScoreMax(s: seq<real>, x: real)
    requires |s| > 0
    ensures Max(s) <= Max(s + [x])
  {
    assert Max(s) in s + [x];
  }

  /** One more score lowers the mean exactly when it is below the mean. */
  lemma AppendScoreMean(s: seq<real>, x: real)
    requires |s| > 0
    ensures Mean(s + [x]) < Mean(s) <==> x < Mean(s)
  {
    SumConcat(s, [x]);
    MeanStep(Sum(s), x, |s| as real);
    assert Sum([x]) == x;
    assert (|s + [x]| as real) == (|s| as real) + 1.0;
    assert Mean(s + [x]) == (Sum(s) + x) / ((|s| as real) + 1.0);
  }

  lemma MeanStep(total: real, x: real, n: real)
    requires n > 0.0
    ensures (total + x) / (n + 1.0) < total / n <==> x < total / n
  {
  }

  /** The statistics lie between any two bounds of the scores, and the worst case is the
      largest of the three. */
  lemma {:induction false} SumBounds(s: seq<real>, lo: real, hi: real)
    requires forall i :: 0 <= i < |s| ==> lo <= s[i] <= hi
    ensures lo * (|s| as real) <= Sum(s) <= hi * (|s| as real)
  {
    if s != [] {
      SumBounds(s[1..], lo, hi);
      var n := |s[1..]| as real;
      assert (|s| as real) == n + 1.0;
      assert lo * (n + 1.0) == lo * n + lo && hi * (n + 1.0) == hi * n + hi;
    }
  }

  lemma StatisticsBounds(s: seq<real>, lo: real, hi: real)
    requires |s| > 0
    requires forall i :: 0 <= i < |s| ==> lo <= s[i] <= hi
    ensures lo <= Median(s) <= Max(s) <= hi
    ensures lo <= Mean(s) <= Max(s)
  {
    assert forall i :: 0 <= i < |s| ==> s[i] in s;
    MedianBounds(s, lo, Max(s));
    MeanWithin(s, lo, Max(s));
  }

  lemma MeanWithin(s: seq<real>, lo: real, hi: real)
    requires |s| > 0
    requires forall i :: 0 <= i < |s| ==> lo <= s[i] <= hi
    ensures lo <= Mean(s) <= hi
  {
    SumBounds(s, lo, hi);
    MeanBounds(Sum(s), |s| as real, lo, hi);
  }

  lemma MedianBounds(s: seq<real>, lo: real, hi: real)
    requires |s| > 0
    requires forall i :: 0 <= i < |s| ==> lo <= s[i] <= hi
    ensures lo <= Median(s) <= hi
  {
    var c := SortedCopy(s);
    SortedCopyContents(s);
    SameMultiset(s, c);
    forall i | 0 <= i < |c| ensures lo <= c[i] <= hi {
      assert c[i] in c;
    }
  }

  lemma MeanBounds(total: real, n: real, lo: real, hi: real)
    requires n > 0.0 && lo * n <= total <= hi * n
    ensures lo <= total / n <= hi
  {
  }

  /** How one more score moves the middle of a sorted list of even length. */
  lemma MiddleOfInsertEven(c: seq<real>, m: nat, x: real)
    requires m > 0 && |c| == 2 * m && Sorted(c)
    ensures Middle(Insert(x, c)) == if x < c[m - 1] then c[m - 1] else if x > c[m] then c[m] else x
  {
    var k := InsertAt(x, c);
    var d := Insert(x, c);
    assert Middle(d) == d[m];
    assert d[m] == if m < k then c[m] else if m == k then x else c[m - 1];
  }

  /** How one more score moves the middle of a sorted list of odd length. */
  lemma MiddleOfInsertOdd(c: seq<real>, m: nat, x: real)
    requires |c| == 2 * m + 1 && Sorted(c)
    ensures x >= c[m] ==> Middle(Insert(x, c)) >= c[m]
    ensures x < c[m] ==>
      Middle(Insert(x, c)) == (c[m] + if m == 0 || x > c[m - 1] then x else c[m - 1]) / 2.0
  {
    var k := InsertAt(x, c);
    var d := Insert(x, c);
    assert Middle(d) == (d[m] + d[m + 1]) / 2.0;
    assert d[m] == if m < k then c[m] else if m == k then x else c[m - 1];
    assert d[m + 1] == if m + 1 < k then c[m + 1] else if m + 1 == k then x else c[m];
  }

  /** Insertion splits the list at the first entry that is not smaller. */
  lemma {:induction false} InsertAt(x: real, c: seq<real>) returns (k: nat)
    requires Sorted(c)
    ensures k <= |c| && Insert(x, c) == c[..k] + [x] + c[k..]
    ensures forall i :: 0 <= i < k ==> c[i] < x
    ensures forall i :: k <= i < |c| ==> x <= c[i]
  {
    if c == [] || x <= c[0] {
      k := 0;
    } else {
      var j := InsertAt(x, c[1..]);
      k := j + 1;
      assert forall i :: 1 <= i < |c| ==> c[i] == c[1..][i - 1];
    }
  }

  lemma MedianOfAppend(s: seq<real>, x: real)
    requires |s| > 0
    ensures Median(s + [x]) == Middle(Insert(x, SortedCopy(s)))
  {
    SortedCopySorted(s);
    SortedCopyContents(s);
    InsertSorted(x, SortedCopy(s));
    InsertContents(x, SortedCopy(s));
    MedianOfSorted(s + [x], Insert(x, SortedCopy(s)));
  }

  /** The sorted score just below the middle of the list. */
  function BelowMiddle(s: seq<real>): real
    requires |s| > 1
  {
    SortedCopy(s)[(|s| - 1) / 2 - |s| % 2]
  }

  /** One more score lowers the median exactly when it is below the median and so is the
      sorted score just below the middle. */
  lemma AppendScoreMedian(s: seq<real>, x: real)
    requires |s| > 0
    ensures Median(s + [x]) < Median(s) <==>
      x < Median(s) && (|s| == 1 || BelowMiddle(s) < Median(s))
  {
    var c := SortedCopy(s);
    var m := |s| / 2;
    SortedCopySorted(s);
    MedianOfAppend(s, x);
    if |s| == 2 * m {
      MiddleOfInsertEven(c, m, x);
      assert Median(s) == (c[m - 1] + c[m]) / 2.0;
    } else {
      MiddleOfInsertOdd(c, m, x);
      assert Median(s) == c[m];
    }
  }
}
