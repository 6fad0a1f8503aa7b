/** What the risk numbers promise: independence of every iteration order, monotonicity in
    the indicators, and their exact range. */
module RiskTheorems {
  import opened Sequences
  import opened Results
  import opened ServiceLib
  import opened RiskCalculation
  import Stats

  /* ---------- orders of the scenario map ---------- */

  lemma {:induction false} ListsOnce(order: seq<string>, keys: set<string>, s: string)
    requires Lists(order, keys)
    ensures multiset(order)[s] == if s in keys then 1 else 0
    ensures |order| == |keys|
  {
    if order != [] {
      var n := |order| - 1;
      var front := order[..n];
      assert order == front + [order[n]];
      forall x ensures x in front <==> x in keys - {order[n]} {
      }
      ListsOnce(front, keys - {order[n]}, s);
    } else {
      assert keys == {};
    }
  }

  lemma ListingsPermute(o: seq<string>, o': seq<string>, keys: set<string>)
    requires Lists(o, keys) && Lists(o', keys)
    ensures multiset(o) == multiset(o')
  {
    forall s ensures multiset(o)[s] == multiset(o')[s] {
      ListsOnce(o, keys, s);
      ListsOnce(o', keys, s);
    }
  }

  function Map<T, U>(f: T -> U, s: seq<T>): seq<U> {
    seq(|s|, i requires 0 <= i < |s| => f(s[i]))
  }

  lemma MapDrop<T, U>(f: T -> U, s: seq<T>, k: nat)
    requires k < |s|
    ensures multiset(Map(f, s)) == multiset(Map(f, s[..k] + s[k + 1..])) + multiset{f(s[k])}
  {
    var t := Map(f, s);
    assert t == t[..k] + [t[k]] + t[k + 1..];
    assert t[..k] + t[k + 1..] == Map(f, s[..k] + s[k + 1..]);
  }

  /** Mapping a function over a list commutes with permuting it. */
  lemma {:induction false} MapPermutation<T, U>(f: T -> U, s: seq<T>, t: seq<T>)
    requires multiset(s) == multiset(t)
    ensures multiset(Map(f, s)) == multiset(Map(f, t))
  {
    if s == [] {
      SameMultiset(s, t);
    } else {
      var k := TakeFirst(s, t);
      MapDrop(f, t, k);
      MapPermutation(f, s[1..], t[..k] + t[k + 1..]);
      assert Map(f, s) == [f(s[0])] + Map(f, s[1..]);
    }
  }

  lemma GeneratedPermutation(a: RRAAttribute, m: map<string, real>, o: seq<string>, o': seq<string>)
    requires multiset(o) == multiset(o')
    requires (forall s :: s in o ==> s in m) && (forall s :: s in o' ==> s in m)
    ensures multiset(Generated(a, m, o)) == multiset(Generated(a, m, o'))
  {
    var f := k => IndicatorScenario(a, k, if k in m then m[k] else 0.0);
    MapPermutation(f, o, o');
    assert Generated(a, m, o) == Map(f, o);
    assert Generated(a, m, o') == Map(f, o');
  }

  lemma ScoresPermutation(s: seq<RiskScenario>, t: seq<RiskScenario>)
    requires multiset(s) == multiset(t)
    ensures multiset(Scores(s)) == multiset(Scores(t))
  {
    var f := (x: RiskScenario) => x.score;
    MapPermutation(f, s, t);
    assert Scores(s) == Map(f, s);
    assert Scores(t) == Map(f, t);
  }

  /** The scores when the sources are walked in the given order. */
  function ScoresIn(a: RRAAttribute, m: map<string, real>, order: seq<string>): (s: seq<real>)
    requires forall s :: s in order ==> s in m
    ensures |s| == 1 + |order| && s[0] == RRAScenario(a).score
    ensures forall i :: 0 <= i < |order| ==> s[1 + i] == Score(a.impact, m[order[i]])
  {
    Scores([RRAScenario(a)] + Generated(a, m, order))
  }

  function Sources(rra: RRA): map<string, real> {
    ObserveAll(map[], Indicators(rra.groups))
  }

  lemma SummaryOfPermutation(s: seq<real>, t: seq<real>, impact: real, defData: string)
    requires multiset(s) == multiset(t)
    ensures Summarise(s, impact, defData) == Summarise(t, impact, defData)
  {
    SameMultiset(s, t);
    if s != [] {
      Stats.PermutationInvariant(s, t);
    }
  }

  /** Whatever order the calculation used, any other order gives the same summary and the
      same multiset of scenarios. */
  lemma AnyOrder(rra: RRA, r: Risk, order: seq<string>)
    requires IsRiskOf(rra, r) && Lists(order, Sources(rra).Keys)
    ensures r.summary == Summarise(ScoresIn(r.used, Sources(rra), order), r.used.impact, rra.row.defData)
    ensures multiset(r.scenarios) == multiset([RRAScenario(r.used)] + Generated(r.used, Sources(rra), order))
    ensures |r.scenarios| == 1 + |Sources(rra).Keys|
  {
    var m := Sources(rra);
    var o :| Lists(o, m.Keys) && r.scenarios == [RRAScenario(r.used)] + Generated(r.used, m, o);
    ListingsPermute(o, order, m.Keys);
    GeneratedPermutation(r.used, m, o, order);
    var t := [RRAScenario(r.used)] + Generated(r.used, m, order);
    ScoresPermutation(r.scenarios, t);
    SummaryOfPermutation(Scores(r.scenarios), Scores(t), r.used.impact, rra.row.defData);
    ListsOnce(o, m.Keys, "");
  }

  lemma SomeOrder(keys: set<string>) returns (order: seq<string>)
    ensures Lists(order, keys)
  {
    if keys == {} {
      order := [];
    } else {
      var k :| k in keys;
      order := SomeOrder(keys - {k});
      ListsMore(order, keys - {k}, k);
      order := order + [k];
      assert keys - {k} + {k} == keys;
    }
  }

  lemma ChosenUnique(r: RRARow, a: RRAAttribute, b: RRAAttribute)
    requires Chosen(r, a) && Chosen(r, b)
    ensures a == b
  {
  }

  /** The result depends on the RRA's labels and the set of linked indicators alone: not on
      the order or grouping of groups, assets and indicators, nor on the map iteration. */
  lemma OrderIndependent(rra: RRA, r: Risk, rra': RRA, r': Risk)
    requires IsRiskOf(rra, r) && IsRiskOf(rra', r') && rra.row == rra'.row
    requires Seen(Indicators(rra.groups)) == Seen(Indicators(rra'.groups))
    ensures r.used == r'.used && r.summary == r'.summary
    ensures multiset(r.scenarios) == multiset(r'.scenarios)
  {
    ObserveAllHighest(Indicators(rra.groups));
    ObserveAllHighest(Indicators(rra'.groups));
    HighestUnique(Sources(rra), Sources(rra'), Seen(Indicators(rra.groups)));
    ChosenUnique(rra.row, r.used, r'.used);
    var order := SomeOrder(Sources(rra).Keys);
    AnyOrder(rra, r, order);
    AnyOrder(rra', r', order);
  }

  /* ---------- monotonicity ---------- */

  function SourceSet(s: seq<Indicator>): set<string> {
    set x | x in s :: x.source
  }

  /** The second list of indicators knows the same sources and is nowhere lower: every
      indicator of the first is matched by one of the same source that is at least as
      likely. */
  ghost predicate Raises(s: seq<Indicator>, t: seq<Indicator>) {
    && SourceSet(s) == SourceSet(t)
    && forall x :: x in s ==>
         exists y :: y in t && y.source == x.source && ImpactValue(x.likelihood) <= ImpactValue(y.likelihood)
  }

  /** Raising one likelihood is such a change. */
  lemma RaiseOne(s: seq<Indicator>, k: nat, likelihood: string)
    requires k < |s| && ImpactValue(s[k].likelihood) <= ImpactValue(likelihood)
    ensures Raises(s, s[k := s[k].(likelihood := likelihood)])
  {
    var t := s[k := s[k].(likelihood := likelihood)];
    forall x | x in s
      ensures exists y :: y in t && y.source == x.source && ImpactValue(x.likelihood) <= ImpactValue(y.likelihood)
    {
      var i :| 0 <= i < |s| && s[i] == x;
      assert t[i] in t;
    }
    forall n ensures n in SourceSet(s) <==> n in SourceSet(t) {
      if n in SourceSet(s) {
        var i :| 0 <= i < |s| && s[i].source == n;
        assert t[i] in t;
      }
      if n in SourceSet(t) {
        var i :| 0 <= i < |t| && t[i].source == n;
        assert s[i] in s;
      }
    }
  }

  /** So is adding an indicator of a source that is already present. */
  lemma AddKnownSource(s: seq<Indicator>, x: Indicator)
    requires x.source in SourceSet(s)
    ensures Raises(s, s + [x])
  {
  }

  lemma SeenBound(s: seq<Indicator>, x: Indicator)
    requires x in s
    ensures x.source in ObserveAll(map[], s) && ImpactValue(x.likelihood) <= ObserveAll(map[], s)[x.source]
  {
  }

  lemma SourceWitness(s: seq<Indicator>, k: string) returns (x: Indicator)
    requires k in ObserveAll(map[], s)
    ensures x in s && x.source == k && ImpactValue(x.likelihood) == ObserveAll(map[], s)[k]
  {
    ObserveAllHighest(s);
    x :| x in Seen(s) && x.source == k && ImpactValue(x.likelihood) == ObserveAll(map[], s)[k];
  }

  /** The sources of the scenarios are those of the indicators. */
  lemma SourceKeys(s: seq<Indicator>)
    ensures ObserveAll(map[], s).Keys == SourceSet(s)
  {
  }

  lemma RaisesSources(s: seq<Indicator>, t: seq<Indicator>)
    requires Raises(s, t)
    ensures ObserveAll(map[], s).Keys == ObserveAll(map[], t).Keys
    ensures forall k :: k in ObserveAll(map[], s) ==> ObserveAll(map[], s)[k] <= ObserveAll(map[], t)[k]
  {
    SourceKeys(s);
    SourceKeys(t);
    forall k | k in ObserveAll(map[], s) ensures ObserveAll(map[], s)[k] <= ObserveAll(map[], t)[k] {
      var x := SourceWitness(s, k);
      var y :| y in t && y.source == x.source && ImpactValue(x.likelihood) <= ImpactValue(y.likelihood);
      SeenBound(t, y);
    }
  }

  lemma ScoreMonotone(impact: real, p: real, q: real)
    requires impact >= 0.0 && p <= q
    ensures Score(impact, p) <= Score(impact, q)
  {
  }

  /** No statistic and none of their labels is lower in the second summary. */
  predicate NotLower(a: Summary, b: Summary) {
    && a.median <= b.median && a.average <= b.average && a.worstCase <= b.worstCase
    && Severity(a.medianLabel) <= Severity(b.medianLabel)
    && Severity(a.averageLabel) <= Severity(b.averageLabel)
    && Severity(a.worstCaseLabel) <= Severity(b.worstCaseLabel)
  }

  /** Nor does anything else in the summary change. */
  predicate NowhereLower(a: Summary, b: Summary) {
    NotLower(a, b) && a.impact == b.impact && a.impactLabel == b.impactLabel && a.dataClass == b.dataClass
  }

  /** Summaries of pointwise higher scores are not lower. */
  lemma HigherScores(s: seq<real>, t: seq<real>, impact: real, impact': real, defData: string, defData': string)
    requires 0 < |s| == |t| && forall i :: 0 <= i < |s| ==> s[i] <= t[i]
    ensures NotLower(Summarise(s, impact, defData), Summarise(t, impact', defData'))
  {
    Stats.StatisticsMonotone(s, t);
    SeverityMonotone(Stats.Median(s), Stats.Median(t));
    SeverityMonotone(Stats.Mean(s), Stats.Mean(t));
    SeverityMonotone(Stats.Max(s), Stats.Max(t));
  }

  /** With the RRA fixed, raising indicators lowers nothing. */
  lemma RaisingLowersNothing(rra: RRA, r: Risk, rra': RRA, r': Risk)
    requires IsRiskOf(rra, r) && IsRiskOf(rra', r') && rra.row == rra'.row
    requires Raises(Indicators(rra.groups), Indicators(rra'.groups))
    ensures NowhereLower(r.summary, r'.summary)
  {
    var m, m' := Sources(rra), Sources(rra');
    RaisesSources(Indicators(rra.groups), Indicators(rra'.groups));
    ChosenUnique(rra.row, r.used, r'.used);
    ChosenImpact(rra.row, r.used);
    var order := SomeOrder(m.Keys);
    AnyOrder(rra, r, order);
    AnyOrder(rra', r', order);
    var s, t := ScoresIn(r.used, m, order), ScoresIn(r.used, m', order);
    forall i | 0 <= i < |s| ensures s[i] <= t[i] {
      if i > 0 {
        ScoreMonotone(r.used.impact, m[order[i - 1]], m'[order[i - 1]]);
      }
    }
    HigherScores(s, t, r.used.impact, r'.used.impact, rra.row.defData, rra'.row.defData);
  }

  /** The second document has one indicator more, of a source not seen before, wherever it
      stands among the others. */
  ghost predicate GainsSource(rra: RRA, rra': RRA, x: Indicator) {
    rra.row == rra'.row && Seen(Indicators(rra'.groups)) == Seen(Indicators(rra.groups)) + {x} &&
    x.source !in SourceSet(Indicators(rra.groups))
  }

  lemma NewSourceTable(rra: RRA, rra': RRA, x: Indicator)
    requires GainsSource(rra, rra', x)
    ensures x.source !in Sources(rra) && Sources(rra') == Sources(rra)[x.source := ImpactValue(x.likelihood)]
  {
    var s, t := Indicators(rra.groups), Indicators(rra'.groups);
    var m := Sources(rra)[x.source := ImpactValue(x.likelihood)];
    SourceKeys(s);
    ObserveAllHighest(s);
    ObserveAllHighest(t);
    forall k | k in m ensures exists y :: y in Seen(t) && y.source == k && ImpactValue(y.likelihood) == m[k] {
      if k == x.source {
        assert x in Seen(t);
      } else {
        var y :| y in Seen(s) && y.source == k && ImpactValue(y.likelihood) == m[k];
        assert y in Seen(t);
      }
    }
    forall y | y in Seen(t) ensures y.source in m && ImpactValue(y.likelihood) <= m[y.source] {
      assert y in Seen(s) ==> y.source in SourceSet(s);
    }
    HighestUnique(Sources(rra'), m, Seen(t));
  }

  lemma NewSourceOrder(rra: RRA, rra': RRA, x: Indicator, order: seq<string>, a: RRAAttribute)
    requires GainsSource(rra, rra', x) && Lists(order, Sources(rra).Keys)
    ensures Lists(order + [x.source], Sources(rra').Keys)
    ensures ScoresIn(a, Sources(rra'), order + [x.source]) ==
      ScoresIn(a, Sources(rra), order) + [Score(a.impact, ImpactValue(x.likelihood))]
  {
    NewSourceTable(rra, rra', x);
    assert Sources(rra').Keys == Sources(rra).Keys + {x.source};
    ListsMore(order, Sources(rra).Keys, x.source);
    ScoresGrow(a, Sources(rra), Sources(rra'), order, x.source);
  }

  lemma ScoresGrow(a: RRAAttribute, m: map<string, real>, m': map<string, real>, order: seq<string>, k: string)
    requires (forall s :: s in order ==> s in m && s in m' && m'[s] == m[s]) && k in m'
    ensures ScoresIn(a, m', order + [k]) == ScoresIn(a, m, order) + [Score(a.impact, m'[k])]
  {
  }

  /** How the scores grow with a source not seen before. */
  lemma NewSourceScores(rra: RRA, r: Risk, rra': RRA, r': Risk, x: Indicator)
    requires IsRiskOf(rra, r) && IsRiskOf(rra', r') && GainsSource(rra, rra', x)
    ensures var t := Scores(r.scenarios) + [Score(r.used.impact, ImpactValue(x.likelihood))];
      r'.summary == Summarise(t, r.used.impact, rra.row.defData)
  {
    ChosenUnique(rra.row, r.used, r'.used);
    var order := OrderUsed(rra, r);
    NewSourceOrder(rra, rra', x, order, r.used);
    AnyOrder(rra', r', order + [x.source]);
  }

  lemma OrderUsed(rra: RRA, r: Risk) returns (order: seq<string>)
    requires IsRiskOf(rra, r)
    ensures Lists(order, Sources(rra).Keys) && Scores(r.scenarios) == ScoresIn(r.used, Sources(rra), order)
  {
    var m := Sources(rra);
    order :| Lists(order, m.Keys) && r.scenarios == [RRAScenario(r.used)] + Generated(r.used, m, order);
  }

  /** A new source never lowers the worst case. It lowers the average exactly when its own
      score is below the average, and the median exactly when its score and the sorted score
      below the middle are below the median. */
  lemma NewSource(rra: RRA, r: Risk, rra': RRA, r': Risk, x: Indicator)
    requires IsRiskOf(rra, r) && IsRiskOf(rra', r') && GainsSource(rra, rra', x)
    ensures r.summary.worstCase <= r'.summary.worstCase
    ensures Severity(r.summary.worstCaseLabel) <= Severity(r'.summary.worstCaseLabel)
    ensures r'.summary.average < r.summary.average <==>
      Score(r.used.impact, ImpactValue(x.likelihood)) < r.summary.average
    ensures r'.summary.median < r.summary.median <==>
      Score(r.used.impact, ImpactValue(x.likelihood)) < r.summary.median &&
      (|r.scenarios| == 1 || Stats.BelowMiddle(Scores(r.scenarios)) < r.summary.median)
  {
    NewSourceScores(rra, r, rra', r', x);
    var s, score := Scores(r.scenarios), Score(r.used.impact, ImpactValue(x.likelihood));
    Stats.AppendScoreMax(s, score);
    Stats.AppendScoreMean(s, score);
    Stats.AppendScoreMedian(s, score);
    SeverityMonotone(Stats.Max(s), Stats.Max(s + [score]));
  }

  /** One pair of labels: maximum impact at medium probability. */
  const PLAIN := RRARow("a", 0, "public", "maximum", "", "", "", "", "", "", "", "",
                        "medium", "", "", "", "", "", "", "", "")

  /** A pair whose product exceeds all others is the one chosen. */
  lemma ChosenAt(r: RRARow, a: RRAAttribute, n: nat)
    requires Chosen(r, a) && n < 9
    requires forall j :: 0 <= j < 9 && j != n ==> Product(Pairs(r)[j]) < Product(Pairs(r)[n])
    ensures a == RRAAttribute(AttributeName(n), Pairs(r)[n].0, Pairs(r)[n].1)
  {
    var p := Pairs(r);
    var k: nat :| IsHighest(p, k) && a == RRAAttribute(AttributeName(k), p[k].0, p[k].1);
    assert Product(p[n]) <= Product(p[k]);
  }

  lemma PlainPairs()
    ensures HasRisk(PLAIN)
    ensures Pairs(PLAIN)[0] == (4.0, 2.0)
    ensures forall j :: 0 <= j < 9 && j != 0 ==> Product(Pairs(PLAIN)[j]) < Product(Pairs(PLAIN)[0])
  {
    assert IsLabel(LabelPairs(PLAIN)[0].0) && IsLabel(LabelPairs(PLAIN)[0].1);
    assert forall j :: 1 <= j < 9 ==> Product(Pairs(PLAIN)[j]) == 0.0;
  }

  function WithIndicators(row: RRARow, s: seq<Indicator>): RRA {
    RRA(row, [AssetGroup(1, "g", [Asset(1, s)])])
  }

  lemma WithIndicatorsHas(row: RRARow, s: seq<Indicator>)
    ensures Indicators(WithIndicators(row, s).groups) == s
  {
    var g := WithIndicators(row, s).groups;
    assert g[..0] == [] && g[0].assets[..0] == [];
    assert AssetIndicators(g[0].assets) == s;
  }

  const LOW := Indicator("scan", 1, "low")

  /** A concrete case: a first indicator, of low likelihood, lowers median and average. */
  method LowSource() returns (r: Risk, r': Risk)
    ensures IsRiskOf(WithIndicators(PLAIN, []), r) && IsRiskOf(WithIndicators(PLAIN, [LOW]), r')
    ensures r'.summary.median < r.summary.median && r'.summary.average < r.summary.average
  {
    PlainPairs();
    WithIndicatorsHas(PLAIN, []);
    WithIndicatorsHas(PLAIN, [LOW]);
    r := Calculated(WithIndicators(PLAIN, []));
    r' := Calculated(WithIndicators(PLAIN, [LOW]));
    LowSourceLowers(r, r');
  }

  lemma LowSourceLowers(r: Risk, r': Risk)
    requires IsRiskOf(WithIndicators(PLAIN, []), r) && IsRiskOf(WithIndicators(PLAIN, [LOW]), r')
    ensures r'.summary.median < r.summary.median && r'.summary.average < r.summary.average
  {
    WithIndicatorsHas(PLAIN, []);
    WithIndicatorsHas(PLAIN, [LOW]);
    PlainPairs();
    ChosenAt(PLAIN, r.used, 0);
    FirstSource(WithIndicators(PLAIN, []), r, WithIndicators(PLAIN, [LOW]), r', LOW);
  }

  /** The first indicator lowers median and average when it is less likely than the RRA's own
      capped probability. */
  lemma FirstSource(rra: RRA, r: Risk, rra': RRA, r': Risk, x: Indicator)
    requires IsRiskOf(rra, r) && IsRiskOf(rra', r') && rra.row == rra'.row
    requires Indicators(rra.groups) == [] && Indicators(rra'.groups) == [x]
    requires r.used.impact > 0.0 && ImpactValue(x.likelihood) < Capped(r.used)
    ensures r'.summary.median < r.summary.median && r'.summary.average < r.summary.average
  {
    FirstGains(rra, rra', x);
    SingleScore(rra, r);
    OwnScore(r.used, ImpactValue(x.likelihood));
    NewSource(rra, r, rra', r', x);
  }

  lemma FirstGains(rra: RRA, rra': RRA, x: Indicator)
    requires rra.row == rra'.row && Indicators(rra.groups) == [] && Indicators(rra'.groups) == [x]
    ensures GainsSource(rra, rra', x)
  {
    assert Seen([x]) == Seen([]) + {x};
  }

  lemma OwnScore(a: RRAAttribute, p: real)
    requires a.impact > 0.0 && 0.0 <= p < Capped(a)
    ensures Score(a.impact, p) < RRAScenario(a).score
  {
    assert a.impact * (Capped(a) - p) > 0.0;
    assert RRAScenario(a).score == Score(a.impact, Capped(a));
  }

  /** Without indicators all statistics are the score of the RRA itself. */
  lemma SingleScore(rra: RRA, r: Risk)
    requires IsRiskOf(rra, r) && Indicators(rra.groups) == []
    ensures |r.scenarios| == 1
    ensures r.summary.median == r.summary.average == r.summary.worstCase == RRAScenario(r.used).score
  {
    AnyOrder(rra, r, []);
    var s := ScoresIn(r.used, Sources(rra), []);
    Stats.StatisticsBounds(s, s[0], s[0]);
  }

  method Calculated(rra: RRA) returns (r: Risk)
    requires Calculable(rra)
    ensures IsRiskOf(rra, r)
  {
    var doc := new RiskDoc(rra);
    var err := doc.Calculate();
    r := doc.Value();
  }

  /* ---------- exact values and ranges ---------- */

  /** The probability the RRA contributes itself. */
  function Capped(a: RRAAttribute): real {
    if a.probability > 2.0 then 2.0 else a.probability
  }

  /** q is the highest of the RRA's own capped probability and the likelihoods seen. */
  ghost predicate Top(q: real, a: RRAAttribute, s: seq<Indicator>) {
    && Capped(a) <= q && (forall x :: x in s ==> ImpactValue(x.likelihood) <= q)
    && (q == Capped(a) || exists x :: x in s && ImpactValue(x.likelihood) == q)
  }

  lemma ScoreRange(impact: real, p: real)
    requires 1.0 <= impact <= 4.0 && 1.0 <= p <= 4.0
    ensures 1.0 <= Score(impact, p) <= 16.0
    ensures p <= 2.0 ==> Score(impact, p) <= 8.0
    ensures impact <= 3.0 || p <= 3.0 ==> Score(impact, p) <= 12.0
  {
    ScoreMonotone(impact, 1.0, p);
    ScoreMonotone(impact, p, 4.0);
    if p <= 2.0 {
      ScoreMonotone(impact, p, 2.0);
    }
    if p <= 3.0 {
      ScoreMonotone(impact, p, 3.0);
    }
  }

  lemma SourceRange(rra: RRA)
    requires GoodIndicators(Indicators(rra.groups))
    ensures forall s :: s in Sources(rra) ==> 1.0 <= Sources(rra)[s] <= 4.0
  {
    forall s | s in Sources(rra) ensures 1.0 <= Sources(rra)[s] <= 4.0 {
      var x := SourceWitness(Indicators(rra.groups), s);
    }
  }

  /** All scores lie in 1..16, hence so do the statistics; median and average never exceed
      the worst case; there is one scenario for the RRA and one for each distinct source. */
  lemma RiskRange(rra: RRA, r: Risk)
    requires IsRiskOf(rra, r) && Calculable(rra)
    ensures 1.0 <= r.summary.median <= r.summary.worstCase <= 16.0
    ensures 1.0 <= r.summary.average <= r.summary.worstCase
    ensures |r.scenarios| == 1 + |Sources(rra).Keys|
    ensures Sources(rra).Keys == SourceSet(Indicators(rra.groups))
    ensures r.summary.impact == r.used.impact
    ensures ImpactLabelFromValue(r.summary.impact) == Ok(r.summary.impactLabel)
    ensures DataValueFromLabel(rra.row.defData) == Ok(r.summary.dataClass)
  {
    var m := Sources(rra);
    var order := SomeOrder(m.Keys);
    AnyOrder(rra, r, order);
    ChosenImpact(rra.row, r.used);
    SourceRange(rra);
    var s := ScoresIn(r.used, m, order);
    forall i | 0 <= i < |s| ensures 1.0 <= s[i] <= 16.0 {
      ScoreRange(r.used.impact, if i == 0 then Capped(r.used) else m[order[i - 1]]);
    }
    Stats.StatisticsBounds(s, 1.0, 16.0);
    SourceKeys(Indicators(rra.groups));
  }

  /** The worst case in closed form: the chosen impact times the highest likelihood. */
  lemma WorstCase(rra: RRA, r: Risk, q: real)
    requires IsRiskOf(rra, r) && Calculable(rra) && Top(q, r.used, Indicators(rra.groups))
    ensures r.summary.worstCase == Score(r.used.impact, q)
    ensures 1.0 <= q <= 4.0
  {
    var order := SomeOrder(Sources(rra).Keys);
    AnyOrder(rra, r, order);
    ChosenImpact(rra.row, r.used);
    TopBounds(rra, r.used, order, q);
    var k := TopScore(rra, r.used, order, q);
    MaxIs(ScoresIn(r.used, Sources(rra), order), k);
  }

  lemma MaxIs(s: seq<real>, k: nat)
    requires k < |s| && forall i :: 0 <= i < |s| ==> s[i] <= s[k]
    ensures Stats.Max(s) == s[k]
  {
    assert s[k] in s;
    var j :| 0 <= j < |s| && s[j] == Stats.Max(s);
  }

  lemma TopBounds(rra: RRA, a: RRAAttribute, order: seq<string>, q: real)
    requires GoodIndicators(Indicators(rra.groups)) && Lists(order, Sources(rra).Keys)
    requires 1.0 <= a.impact && 1.0 <= a.probability
    requires Top(q, a, Indicators(rra.groups))
    ensures 1.0 <= q <= 4.0
    ensures forall i :: 0 <= i <= |order| ==> ScoresIn(a, Sources(rra), order)[i] <= Score(a.impact, q)
  {
    forall i | 0 <= i <= |order| ensures ScoresIn(a, Sources(rra), order)[i] <= Score(a.impact, q) {
      if i == 0 {
        ScoreMonotone(a.impact, Capped(a), q);
      } else {
        var x := SourceWitness(Indicators(rra.groups), order[i - 1]);
        ScoreMonotone(a.impact, ImpactValue(x.likelihood), q);
      }
    }
  }

  lemma TopScore(rra: RRA, a: RRAAttribute, order: seq<string>, q: real) returns (k: nat)
    requires Lists(order, Sources(rra).Keys)
    requires a.impact >= 1.0 && a.probability >= 1.0
    requires Top(q, a, Indicators(rra.groups))
    ensures k <= |order| && ScoresIn(a, Sources(rra), order)[k] == Score(a.impact, q)
  {
    if q == Capped(a) {
      k := 0;
    } else {
      var x :| x in Indicators(rra.groups) && ImpactValue(x.likelihood) == q;
      SeenBound(Indicators(rra.groups), x);
      var y := SourceWitness(Indicators(rra.groups), x.source);
      var i :| 0 <= i < |order| && order[i] == x.source;
      k := i + 1;
    }
  }

  lemma {:induction false} TopExists(a: RRAAttribute, s: seq<Indicator>) returns (q: real)
    ensures Top(q, a, s)
  {
    if s == [] {
      q := Capped(a);
    } else {
      var front, x := s[..|s| - 1], s[|s| - 1];
      q := TopExists(a, front);
      if ImpactValue(x.likelihood) > q {
        q := ImpactValue(x.likelihood);
      }
      assert s == front + [x];
    }
  }

  lemma MaximumValue(l: string)
    ensures ImpactValue(l) == 4.0 <==> l == "maximum"
    ensures l != "maximum" ==> ImpactValue(l) <= 3.0
  {
  }

  lemma ImpactSteps(r: RRARow, a: RRAAttribute)
    requires Chosen(r, a)
    ensures a.impact != 4.0 ==> a.impact <= 3.0
  {
    var k: nat :| IsHighest(Pairs(r), k) && a == RRAAttribute(AttributeName(k), Pairs(r)[k].0, Pairs(r)[k].1);
    MaximumValue(LabelPairs(r)[k].0);
  }

  /** Without indicators the worst case is never above medium. With them it is maximum
      exactly when the impact is maximum and some linked indicator is. */
  lemma WorstCaseLabel(rra: RRA, r: Risk)
    requires IsRiskOf(rra, r) && Calculable(rra)
    ensures Indicators(rra.groups) == [] ==> Severity(r.summary.worstCaseLabel) <= 1
    ensures r.summary.worstCaseLabel == "maximum" <==>
      r.used.impact == 4.0 && exists x :: x in Indicators(rra.groups) && x.likelihood == "maximum"
  {
    var s := Indicators(rra.groups);
    var q := TopExists(r.used, s);
    WorstCase(rra, r, q);
    ChosenImpact(rra.row, r.used);
    ImpactSteps(rra.row, r.used);
    ScoreRange(r.used.impact, q);
    MaximumLabel(r.summary.worstCase);
    var order := SomeOrder(Sources(rra).Keys);
    AnyOrder(rra, r, order);
    if exists x :: x in s && x.likelihood == "maximum" {
      var x :| x in s && x.likelihood == "maximum";
      MaximumValue(x.likelihood);
      assert q == 4.0;
    } else {
      forall x | x in s ensures ImpactValue(x.likelihood) <= 3.0 {
        MaximumValue(x.likelihood);
      }
      assert q <= 3.0;
    }
  }

  /* ---------- highest impact or highest product ---------- */

  /** Pair i has the highest impact, and every pair of lower impact also has a lower product,
      or the same one and a later place. */
  ghost predicate ImpactWins(p: seq<(real, real)>, i: nat) {
    && i < |p|
    && (forall j :: 0 <= j < |p| ==> p[j].0 <= p[i].0)
    && forall j :: 0 <= j < |p| && p[j].0 < p[i].0 ==>
         Product(p[j]) < Product(p[i]) || (Product(p[j]) == Product(p[i]) && i < j)
  }

  lemma HighestOrWins(p: seq<(real, real)>, k: nat)
    requires IsHighest(p, k)
    ensures (forall j :: 0 <= j < |p| ==> p[j].0 <= p[k].0) <==> exists i: nat :: ImpactWins(p, i)
  {
    if forall j :: 0 <= j < |p| ==> p[j].0 <= p[k].0 {
      assert ImpactWins(p, k);
    }
    if i: nat :| ImpactWins(p, i) {
      assert p[k].0 == p[i].0;
    }
  }

  /** The attribute used has the highest impact of the nine exactly when some pair of the
      highest impact is not beaten by its probability. */
  lemma HighestImpactUsed(r: RRARow, a: RRAAttribute)
    requires Chosen(r, a)
    ensures HasImpact(Pairs(r), a.impact) <==> exists i: nat :: ImpactWins(Pairs(r), i)
  {
    var p := Pairs(r);
    var k: nat :| IsHighest(p, k) && a == RRAAttribute(AttributeName(k), p[k].0, p[k].1);
    HighestOrWins(p, k);
  }

  /** No pair has an impact above this one. */
  predicate HasImpact(p: seq<(real, real)>, impact: real) {
    forall j :: 0 <= j < |p| ==> p[j].0 <= impact
  }

  /** In particular when there is risk and all nine probabilities have the same value. */
  lemma EqualProbabilities(r: RRARow, a: RRAAttribute, q: real)
    requires Chosen(r, a) && HasRisk(r)
    requires forall x :: x in Pairs(r) ==> x.1 == q
    ensures HasImpact(Pairs(r), a.impact)
  {
    var p := Pairs(r);
    ChosenImpact(r, a);
    var k: nat :| IsHighest(p, k) && a == RRAAttribute(AttributeName(k), p[k].0, p[k].1);
    forall j | 0 <= j < |p| ensures p[j].0 <= a.impact {
      assert p[j] in p && p[k] in p;
      LowerFactor(p[j], p[k]);
    }
  }

  lemma LowerFactor(x: (real, real), y: (real, real))
    requires x.1 == y.1 && y.1 > 0.0 && Product(x) <= Product(y)
    ensures x.0 <= y.0
  {
    assert (x.0 - y.0) * y.1 <= 0.0;
  }

  /** High impact on reputation at maximum probability, maximum impact on finances at low
      probability, and everything else low. */
  const LIKELY := RRARow("a", 0, "public", "high", "low", "maximum", "low", "low", "low", "low", "low", "low",
                         "maximum", "low", "low", "low", "low", "low", "low", "low", "low")

  /** A concrete case: the attribute used has not the highest impact. */
  lemma LowerImpactUsed(a: RRAAttribute)
    requires Chosen(LIKELY, a)
    ensures a == RRAAttribute("reputation", 3.0, 4.0) && !HasImpact(Pairs(LIKELY), a.impact)
  {
    LikelyPairs();
    ChosenAt(LIKELY, a, 0);
  }

  lemma LikelyPairs()
    ensures Pairs(LIKELY)[0] == (3.0, 4.0) && !HasImpact(Pairs(LIKELY), 3.0)
    ensures forall j :: 0 <= j < 9 && j != 0 ==> Product(Pairs(LIKELY)[j]) < Product(Pairs(LIKELY)[0])
  {
    assert Pairs(LIKELY) == [(3.0, 4.0), (1.0, 1.0), (1.0, 1.0), (1.0, 1.0), (1.0, 1.0), (1.0, 1.0),
                             (4.0, 1.0), (1.0, 1.0), (1.0, 1.0)];
    assert Pairs(LIKELY)[6].0 == 4.0;
  }

  /* ---------- monotonicity in the labels of the RRA ---------- */

  /** The second attribute has no lower impact and gives the RRA no lower score of its own. */
  predicate Dominated(a: RRAAttribute, b: RRAAttribute) {
    a.impact <= b.impact && RRAScenario(a).score <= RRAScenario(b).score
  }

  /** With the same good indicators, the second row never has a lower statistic or label. */
  ghost predicate NeverLower(row: RRARow, row': RRARow) {
    forall rra, r, rra', r' | IsRiskOf(rra, r) && IsRiskOf(rra', r') && rra.row == row && rra'.row == row'
      && SameGood(rra, rra') :: NotLower(r.summary, r'.summary)
  }

  ghost predicate SameGood(rra: RRA, rra': RRA) {
    Seen(Indicators(rra.groups)) == Seen(Indicators(rra'.groups)) && GoodIndicators(Indicators(rra.groups))
  }

  /** Raising labels of the RRA lowers nothing whatever its indicators exactly when the
      attribute chosen afterwards dominates the one chosen before. */
  lemma RaisingLabels(row: RRARow, a: RRAAttribute, row': RRARow, b: RRAAttribute)
    requires Chosen(row, a) && HasRisk(row) && IsDataClass(row.defData)
    requires Chosen(row', b) && HasRisk(row') && IsDataClass(row'.defData)
    ensures NeverLower(row, row') <==> Dominated(a, b)
  {
    if Dominated(a, b) {
      forall rra, r, rra', r' | IsRiskOf(rra, r) && IsRiskOf(rra', r') && rra.row == row && rra'.row == row'
        && SameGood(rra, rra') ensures NotLower(r.summary, r'.summary)
      {
        DominatedNotLower(rra, r, rra', r', a, b);
      }
    }
    if NeverLower(row, row') {
      NeverLowerDominates(row, a, row', b);
    }
  }

  lemma DominatedNotLower(rra: RRA, r: Risk, rra': RRA, r': Risk, a: RRAAttribute, b: RRAAttribute)
    requires IsRiskOf(rra, r) && IsRiskOf(rra', r') && SameGood(rra, rra')
    requires Chosen(rra.row, a) && Chosen(rra'.row, b) && Dominated(a, b)
    ensures NotLower(r.summary, r'.summary)
  {
    var m := Sources(rra);
    SameSources(rra, rra');
    ChosenUnique(rra.row, r.used, a);
    ChosenUnique(rra'.row, r'.used, b);
    var order := SomeOrder(m.Keys);
    AnyOrder(rra, r, order);
    AnyOrder(rra', r', order);
    SourceRange(rra);
    var s, t := ScoresIn(a, m, order), ScoresIn(b, m, order);
    forall i | 0 <= i < |s| ensures s[i] <= t[i] {
      if i > 0 {
        ImpactMonotone(a.impact, b.impact, m[order[i - 1]]);
      }
    }
    HigherScores(s, t, a.impact, b.impact, rra.row.defData, rra'.row.defData);
  }

  lemma ImpactMonotone(x: real, y: real, p: real)
    requires x <= y && p >= 0.0
    ensures Score(x, p) <= Score(y, p)
  {
    assert (y - x) * p >= 0.0;
  }

  lemma SameSources(rra: RRA, rra': RRA)
    requires Seen(Indicators(rra.groups)) == Seen(Indicators(rra'.groups))
    ensures Sources(rra) == Sources(rra')
  {
    ObserveAllHighest(Indicators(rra.groups));
    ObserveAllHighest(Indicators(rra'.groups));
    HighestUnique(Sources(rra), Sources(rra'), Seen(Indicators(rra.groups)));
  }

  /** Some risk of a document, once its attribute is known. */
  lemma SomeRisk(rra: RRA, a: RRAAttribute) returns (r: Risk)
    requires Chosen(rra.row, a)
    ensures IsRiskOf(rra, r) && r.used == a
  {
    var m := Sources(rra);
    var order := SomeOrder(m.Keys);
    var scenarios := [RRAScenario(a)] + Generated(a, m, order);
    r := Risk(rra, a, Summarise(Scores(scenarios), a.impact, rra.row.defData), scenarios);
    assert ScenariosAdded([RRAScenario(a)], a, m, scenarios);
  }

  const TOP_INDICATOR := Indicator("scan", 1, "maximum")

  /** Two documents decide it: one without indicators, one with a single maximum. */
  lemma NeverLowerDominates(row: RRARow, a: RRAAttribute, row': RRARow, b: RRAAttribute)
    requires Chosen(row, a) && HasRisk(row) && IsDataClass(row.defData)
    requires Chosen(row', b) && HasRisk(row') && IsDataClass(row'.defData)
    requires NeverLower(row, row')
    ensures Dominated(a, b)
  {
    var r, r' := NotLowerWith(row, a, row', b, []);
    SingleScore(WithIndicators(row, []), r);
    SingleScore(WithIndicators(row', []), r');
    var q, q' := NotLowerWith(row, a, row', b, [TOP_INDICATOR]);
    TopWorstCase(WithIndicators(row, [TOP_INDICATOR]), q);
    TopWorstCase(WithIndicators(row', [TOP_INDICATOR]), q');
  }

  lemma NotLowerWith(row: RRARow, a: RRAAttribute, row': RRARow, b: RRAAttribute, s: seq<Indicator>)
    returns (r: Risk, r': Risk)
    requires Chosen(row, a) && Chosen(row', b) && NeverLower(row, row') && GoodIndicators(s)
    ensures IsRiskOf(WithIndicators(row, s), r) && IsRiskOf(WithIndicators(row', s), r')
    ensures Indicators(WithIndicators(row, s).groups) == Indicators(WithIndicators(row', s).groups) == s
    ensures r.used == a && r'.used == b && NotLower(r.summary, r'.summary)
  {
    WithIndicatorsHas(row, s);
    WithIndicatorsHas(row', s);
    r := SomeRisk(WithIndicators(row, s), a);
    r' := SomeRisk(WithIndicators(row', s), b);
    assert SameGood(WithIndicators(row, s), WithIndicators(row', s));
  }

  lemma TopWorstCase(rra: RRA, r: Risk)
    requires IsRiskOf(rra, r) && HasRisk(rra.row) && IsDataClass(rra.row.defData)
    requires Indicators(rra.groups) == [TOP_INDICATOR]
    ensures r.summary.worstCase == r.used.impact * 4.0
  {
    assert TOP_INDICATOR in Indicators(rra.groups);
    ChosenImpact(rra.row, r.used);
    assert Top(4.0, r.used, Indicators(rra.groups));
    WorstCase(rra, r, 4.0);
  }

  /** Maximum impact on finances at medium probability, high impact on reputation at low
      probability, and everything else low. */
  const BEFORE := RRARow("a", 0, "public", "high", "low", "maximum", "low", "low", "low", "low", "low", "low",
                         "low", "low", "medium", "low", "low", "low", "low", "low", "low")

  /** The reputation's probability raised to maximum. */
  const AFTER := BEFORE.(availRepProb := "maximum")

  lemma BeforePairs()
    ensures HasRisk(BEFORE)
    ensures Pairs(BEFORE)[6] == (4.0, 2.0)
    ensures forall j :: 0 <= j < 9 && j != 6 ==> Product(Pairs(BEFORE)[j]) < Product(Pairs(BEFORE)[6])
  {
    assert Pairs(BEFORE) == [(3.0, 1.0), (1.0, 1.0), (1.0, 1.0), (1.0, 1.0), (1.0, 1.0), (1.0, 1.0),
                             (4.0, 2.0), (1.0, 1.0), (1.0, 1.0)];
    assert IsLabel(LabelPairs(BEFORE)[0].0) && IsLabel(LabelPairs(BEFORE)[0].1);
  }

  lemma AfterPairs()
    ensures HasRisk(AFTER)
    ensures Pairs(AFTER)[0] == (3.0, 4.0)
    ensures forall j :: 0 <= j < 9 && j != 0 ==> Product(Pairs(AFTER)[j]) < Product(Pairs(AFTER)[0])
  {
    assert Pairs(AFTER) == [(3.0, 4.0), (1.0, 1.0), (1.0, 1.0), (1.0, 1.0), (1.0, 1.0), (1.0, 1.0),
                            (4.0, 2.0), (1.0, 1.0), (1.0, 1.0)];
    assert IsLabel(LabelPairs(AFTER)[0].0) && IsLabel(LabelPairs(AFTER)[0].1);
  }

  /** A concrete case: with one indicator at maximum, raising a probability lowers the worst
      case from 16 to 12. */
  method RaisedLabel() returns (r: Risk, r': Risk)
    ensures IsRiskOf(WithIndicators(BEFORE, [TOP_INDICATOR]), r)
    ensures IsRiskOf(WithIndicators(AFTER, [TOP_INDICATOR]), r')
    ensures r.used == RRAAttribute("financial", 4.0, 2.0) && r.summary.worstCase == 16.0
    ensures r'.used == RRAAttribute("reputation", 3.0, 4.0) && r'.summary.worstCase == 12.0
  {
    BeforePairs();
    AfterPairs();
    WithIndicatorsHas(BEFORE, [TOP_INDICATOR]);
    WithIndicatorsHas(AFTER, [TOP_INDICATOR]);
    r := Calculated(WithIndicators(BEFORE, [TOP_INDICATOR]));
    r' := Calculated(WithIndicators(AFTER, [TOP_INDICATOR]));
    ChosenAt(BEFORE, r.used, 6);
    ChosenAt(AFTER, r'.used, 0);
    TopWorstCase(WithIndicators(BEFORE, [TOP_INDICATOR]), r);
    TopWorstCase(WithIndicators(AFTER, [TOP_INDICATOR]), r');
  }

  lemma MaximumLabel(v: real)
    ensures NormalLabelFromValue(v) == "maximum" <==> v >= 13.0
    ensures v <= 8.0 ==> Severity(NormalLabelFromValue(v)) <= 1
  {
  }

  /** An RRA whose labels are all known has risk, so one of its attributes is chosen. */
  lemma NormalisedHasRisk(r: RRARow)
    requires Normalised(r)
    ensures HasRisk(r)
  {
    assert IsLabel(LabelPairs(r)[0].0) && IsLabel(LabelPairs(r)[0].1);
  }
}
