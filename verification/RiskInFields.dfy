/** What a finished risk document holds, said in its own fields, in labels and in numbers. */
module RiskInFields {
  import opened Results
  import opened ServiceLib
  import opened RiskCalculation
  import RiskTheorems
  import Stats

  /* ---------- labels and numbers ---------- */

  /** What each label of an impact, a probability or a likelihood counts. */
  lemma LabelValues()
    ensures ImpactValue("maximum") == 4.0 && ImpactValue("high") == 3.0 && ImpactValue("medium") == 2.0
    ensures ImpactValue("low") == 1.0 && ImpactValue("unknown") == 1.0
    ensures forall l :: l !in {"maximum", "high", "medium", "low", "unknown"} ==> ImpactValue(l) == 0.0
    ensures forall l :: IsLabel(l) <==> l in {"maximum", "high", "medium", "low", "unknown"}
  {
  }

  /** The label goes with this statistic. */
  predicate Labelled(v: real, l: string) {
    && (l == "maximum" <==> 13.0 <= v)
    && (l == "high" <==> 9.0 <= v < 13.0)
    && (l == "medium" <==> 5.0 <= v < 9.0)
    && (l == "low" <==> v < 5.0)
  }

  /** A document is summarised from the scores of its scenarios, of which the first is its own. */
  lemma Summarised(rra: RRA, r: Risk)
    requires IsRiskOf(rra, r)
    ensures r.rra == rra
    ensures |Scores(r.scenarios)| == |r.scenarios| > 0 && r.scenarios[0] == RRAScenario(r.used)
    ensures r.summary == Summarise(Scores(r.scenarios), r.used.impact, rra.row.defData)
  {
  }

  lemma SummaryLabels(s: seq<real>, impact: real, defData: string)
    requires s != []
    ensures var u := Summarise(s, impact, defData);
      Labelled(u.median, u.medianLabel) && Labelled(u.average, u.averageLabel)
      && Labelled(u.worstCase, u.worstCaseLabel)
  {
  }

  lemma SummaryValues(s: seq<real>, impact: real, defData: string)
    requires s != []
    ensures var u := Summarise(s, impact, defData);
      && u.worstCase in s && (forall x :: x in s ==> x <= u.worstCase)
      && u.average == Stats.Sum(s) / (|s| as real)
      && u.median == Stats.Median(s)
  {
  }

  /** Every statistic of a document carries its own label, by the bounds 13, 9 and 5. */
  lemma StatisticLabels(rra: RRA, r: Risk)
    requires IsRiskOf(rra, r)
    ensures Labelled(r.summary.median, r.summary.medianLabel)
    ensures Labelled(r.summary.average, r.summary.averageLabel)
    ensures Labelled(r.summary.worstCase, r.summary.worstCaseLabel)
  {
    Summarised(rra, r);
    SummaryLabels(Scores(r.scenarios), r.used.impact, rra.row.defData);
  }

  /** The impact is that of the attribute used, with its label; the data class has its value. */
  lemma ImpactAndClass(rra: RRA, r: Risk)
    requires IsRiskOf(rra, r) && Calculable(rra)
    ensures r.summary.impact == r.used.impact && r.used.impact in {1.0, 2.0, 3.0, 4.0}
    ensures r.summary.impactLabel == "maximum" <==> r.summary.impact == 4.0
    ensures r.summary.impactLabel == "high" <==> r.summary.impact == 3.0
    ensures r.summary.impactLabel == "medium" <==> r.summary.impact == 2.0
    ensures r.summary.impactLabel == "low" <==> r.summary.impact == 1.0
    ensures rra.row.defData in
      {"confidential secret", "confidential restricted", "confidential internal", "public", "unknown"}
    ensures rra.row.defData == "confidential secret" <==> r.summary.dataClass == 4.0
    ensures rra.row.defData == "confidential restricted" <==> r.summary.dataClass == 3.0
    ensures rra.row.defData == "confidential internal" <==> r.summary.dataClass == 2.0
    ensures rra.row.defData == "public" <==> r.summary.dataClass == 1.0
    ensures rra.row.defData == "unknown" <==> r.summary.dataClass == 0.0
  {
    RiskTheorems.RiskRange(rra, r);
    ChosenImpact(rra.row, r.used);
  }

  /* ---------- the statistics ---------- */

  /** The scores of the scenarios, and their sum. */
  function Listed(scenarios: seq<RiskScenario>): seq<real> {
    if scenarios == [] then [] else Listed(scenarios[..|scenarios| - 1]) + [scenarios[|scenarios| - 1].score]
  }

  function Total(scenarios: seq<RiskScenario>): real {
    if scenarios == [] then 0.0
    else Total(scenarios[..|scenarios| - 1]) + scenarios[|scenarios| - 1].score
  }

  lemma {:induction false} ListedScores(scenarios: seq<RiskScenario>)
    ensures Listed(scenarios) == Scores(scenarios) && Total(scenarios) == Stats.Sum(Scores(scenarios))
  {
    if scenarios != [] {
      var n := |scenarios| - 1;
      ListedScores(scenarios[..n]);
      Stats.SumConcat(Scores(scenarios[..n]), [scenarios[n].score]);
      assert Scores(scenarios) == Scores(scenarios[..n]) + [scenarios[n].score];
      assert [scenarios[n].score][1..] == [];
    }
  }

  /** The worst case is the highest score. */
  lemma WorstCaseIsHighest(rra: RRA, r: Risk)
    requires IsRiskOf(rra, r)
    ensures exists s :: s in r.scenarios && s.score == r.summary.worstCase
    ensures forall s :: s in r.scenarios ==> s.score <= r.summary.worstCase
  {
    Summarised(rra, r);
    HighestScore(r.scenarios, r.used.impact, rra.row.defData);
  }

  lemma HighestScore(scenarios: seq<RiskScenario>, impact: real, defData: string)
    requires |Scores(scenarios)| == |scenarios| > 0
    ensures var worst := Summarise(Scores(scenarios), impact, defData).worstCase;
      && (exists s :: s in scenarios && s.score == worst)
      && forall s :: s in scenarios ==> s.score <= worst
  {
    var scores := Scores(scenarios);
    SummaryValues(scores, impact, defData);
    var worst := Summarise(scores, impact, defData).worstCase;
    var i :| 0 <= i < |scores| && scores[i] == worst;
    assert scenarios[i] in scenarios;
    forall s | s in scenarios ensures s.score <= worst {
      var k :| 0 <= k < |scenarios| && scenarios[k] == s;
      assert scores[k] in scores;
    }
  }

  /** The average is the sum of the scores by the number of scenarios. */
  lemma AverageIsMean(rra: RRA, r: Risk)
    requires IsRiskOf(rra, r)
    ensures |r.scenarios| > 0 && r.summary.average == Total(r.scenarios) / (|r.scenarios| as real)
  {
    Summarised(rra, r);
    AverageScore(r.scenarios, r.used.impact, rra.row.defData);
  }

  lemma AverageScore(scenarios: seq<RiskScenario>, impact: real, defData: string)
    requires |Scores(scenarios)| == |scenarios| > 0
    ensures Summarise(Scores(scenarios), impact, defData).average == Total(scenarios) / (|scenarios| as real)
  {
    SummaryValues(Scores(scenarios), impact, defData);
    ListedScores(scenarios);
  }

  /** The median is the middle one of the scores in ascending order, or half way between the
      two middle ones. */
  lemma MedianIsMiddle(rra: RRA, r: Risk, c: seq<real>)
    requires IsRiskOf(rra, r) && multiset(c) == multiset(Listed(r.scenarios))
    requires forall i, j :: 0 <= i < j < |c| ==> c[i] <= c[j]
    ensures |c| == |r.scenarios| > 0
    ensures |c| % 2 == 1 ==> r.summary.median == c[|c| / 2]
    ensures |c| % 2 == 0 ==> r.summary.median == (c[|c| / 2 - 1] + c[|c| / 2]) / 2.0
  {
    Summarised(rra, r);
    SummaryValues(Scores(r.scenarios), r.used.impact, rra.row.defData);
    ListedScores(r.scenarios);
    Stats.MedianOfSorted(Scores(r.scenarios), c);
  }

  /* ---------- the scenarios ---------- */

  lemma UsedNonzero(rra: RRA, r: Risk)
    requires IsRiskOf(rra, r) && Calculable(rra)
    ensures r.used.impact != 0.0 && r.used.probability != 0.0
  {
    ChosenImpact(rra.row, r.used);
  }

  /** The scenario of an attribute by itself, with the probability capped at medium. */
  predicate IsOwn(s: RiskScenario, a: RRAAttribute) {
    && s.name == "RRA derived risk for " + a.attribute && s.impact == a.impact
    && s.probability == (if a.probability > 2.0 then 2.0 else a.probability)
    && s.score == s.impact * s.probability
  }

  lemma OwnScenarioFields(a: RRAAttribute)
    requires a.impact != 0.0 && a.probability != 0.0
    ensures IsOwn(RRAScenario(a), a)
  {
    assert "RRA" + " derived risk for " == "RRA derived risk for ";
  }

  /** The first scenario is that of the RRA itself. */
  lemma OwnScenario(rra: RRA, r: Risk)
    requires IsRiskOf(rra, r) && Calculable(rra)
    ensures |r.scenarios| > 0 && IsOwn(r.scenarios[0], r.used)
  {
    Summarised(rra, r);
    UsedNonzero(rra, r);
    OwnScenarioFields(r.used);
  }

  /** Scenario i is the one of this event source: its probability is the highest likelihood
      among the indicators of the source. */
  ghost predicate IsScenarioOf(rra: RRA, r: Risk, i: nat, source: string)
    requires i < |r.scenarios|
  {
    var s, all := r.scenarios[i], Indicators(rra.groups);
    && s.name == source + " derived risk for " + r.used.attribute && s.impact == r.used.impact
    && s.score == s.impact * s.probability
    && (exists x :: x in all && x.source == source && ImpactValue(x.likelihood) == s.probability)
    && forall x :: x in all && x.source == source ==> ImpactValue(x.likelihood) <= s.probability
  }

  /** Each event source of the indicators has one of the other scenarios, and there are no
      more than that. */
  lemma SourceScenarios(rra: RRA, r: Risk, x: Indicator)
    requires IsRiskOf(rra, r)
    ensures x in Indicators(rra.groups) ==>
      exists i :: 1 <= i < |r.scenarios| && IsScenarioOf(rra, r, i, x.source)
    ensures |r.scenarios| == 1 + |set y | y in Indicators(rra.groups) :: y.source|
  {
    var order := ScenarioOrder(rra, r);
    RiskTheorems.SourceKeys(Indicators(rra.groups));
    RiskTheorems.ListsOnce(order, RiskTheorems.Sources(rra).Keys, "");
    if x in Indicators(rra.groups) {
      RiskTheorems.SeenBound(Indicators(rra.groups), x);
      var i :| 0 <= i < |order| && order[i] == x.source;
      SourceScenario(rra, r, order, i);
      assert IsScenarioOf(rra, r, 1 + i, x.source);
    }
  }

  lemma ScenarioOrder(rra: RRA, r: Risk) returns (order: seq<string>)
    requires IsRiskOf(rra, r)
    ensures Lists(order, RiskTheorems.Sources(rra).Keys)
    ensures r.scenarios == [RRAScenario(r.used)] + Generated(r.used, RiskTheorems.Sources(rra), order)
  {
    var m := RiskTheorems.Sources(rra);
    order :| Lists(order, m.Keys) && r.scenarios == [RRAScenario(r.used)] + Generated(r.used, m, order);
  }

  lemma SourceScenario(rra: RRA, r: Risk, order: seq<string>, i: nat)
    requires i < |order| && forall s :: s in order ==> s in RiskTheorems.Sources(rra)
    requires r.scenarios == [RRAScenario(r.used)] + Generated(r.used, RiskTheorems.Sources(rra), order)
    ensures IsScenarioOf(rra, r, 1 + i, order[i])
  {
    var all := Indicators(rra.groups);
    assert r.scenarios[1 + i] == IndicatorScenario(r.used, order[i], RiskTheorems.Sources(rra)[order[i]]);
    var y := RiskTheorems.SourceWitness(all, order[i]);
    forall x | x in all && x.source == order[i] ensures ImpactValue(x.likelihood) <= r.scenarios[1 + i].probability {
      RiskTheorems.SeenBound(all, x);
    }
  }

  /* ---------- the attribute used ---------- */

  /** The nine pairs of impact and probability of a row, in the order in which ties are
      decided: reputation, productivity, financial, and within each availability,
      confidentiality, integrity. */
  lemma PairsOf(row: RRARow)
    ensures Pairs(row) ==
      [(ImpactValue(row.availRepImpact), ImpactValue(row.availRepProb)),
       (ImpactValue(row.confiRepImpact), ImpactValue(row.confiRepProb)),
       (ImpactValue(row.integRepImpact), ImpactValue(row.integRepProb)),
       (ImpactValue(row.availPrdImpact), ImpactValue(row.availPrdProb)),
       (ImpactValue(row.confiPrdImpact), ImpactValue(row.confiPrdProb)),
       (ImpactValue(row.integPrdImpact), ImpactValue(row.integPrdProb)),
       (ImpactValue(row.availFinImpact), ImpactValue(row.availFinProb)),
       (ImpactValue(row.confiFinImpact), ImpactValue(row.confiFinProb)),
       (ImpactValue(row.integFinImpact), ImpactValue(row.integFinProb))]
  {
  }

  /** Pair k has the highest product, and those before it a lower one. */
  predicate FirstHighest(p: seq<(real, real)>, k: nat) {
    && k < |p|
    && (forall j :: 0 <= j < |p| ==> p[j].0 * p[j].1 <= p[k].0 * p[k].1)
    && (forall j :: 0 <= j < k ==> p[j].0 * p[j].1 < p[k].0 * p[k].1)
  }

  /** The attribute used carries the first of these pairs with the highest product. */
  lemma UsedAttribute(row: RRARow, a: RRAAttribute) returns (k: nat)
    requires Chosen(row, a)
    ensures FirstHighest(Pairs(row), k) && a.impact == Pairs(row)[k].0 && a.probability == Pairs(row)[k].1
    ensures a.attribute == if k < 3 then "reputation" else if k < 6 then "productivity" else "financial"
  {
    k :| IsHighest(Pairs(row), k) && a == RRAAttribute(AttributeName(k), Pairs(row)[k].0, Pairs(row)[k].1);
    HighestProducts(Pairs(row), k);
  }

  lemma HighestProducts(p: seq<(real, real)>, k: nat)
    requires IsHighest(p, k)
    ensures FirstHighest(p, k)
  {
    forall j | 0 <= j < |p| ensures p[j].0 * p[j].1 <= p[k].0 * p[k].1 {
      assert Product(p[j]) <= Product(p[k]);
    }
    forall j | 0 <= j < k ensures p[j].0 * p[j].1 < p[k].0 * p[k].1 {
      assert Product(p[j]) < Product(p[k]);
    }
  }
}
