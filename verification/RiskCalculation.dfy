/** The risk of one RRA from its labels and the indicators of its assets. */
module RiskCalculation {
  import opened Results
  import opened ServiceLib
  import Stats

  /* ---------- the chosen attribute ---------- */

  /** The nine (impact, probability) value pairs, in the order of LabelPairs. */
  function Pairs(r: RRARow): seq<(real, real)> {
    var l := LabelPairs(r);
    [Pair(l[0].0, l[0].1), Pair(l[1].0, l[1].1), Pair(l[2].0, l[2].1),
     Pair(l[3].0, l[3].1), Pair(l[4].0, l[4].1), Pair(l[5].0, l[5].1),
     Pair(l[6].0, l[6].1), Pair(l[7].0, l[7].1), Pair(l[8].0, l[8].1)]
  }

  /** Impact times probability. */
  function Product(p: (real, real)): real {
    p.0 * p.1
  }

  /** Pair k has the highest product, and every pair before it a lower one. */
  ghost predicate IsHighest(pairs: seq<(real, real)>, k: nat) {
    && k < |pairs|
    && (forall j :: 0 <= j < |pairs| ==> Product(pairs[j]) <= Product(pairs[k]))
    && (forall j :: 0 <= j < k ==> Product(pairs[j]) < Product(pairs[k]))
  }

  function AttributeName(k: nat): string {
    if k < 3 then "reputation" else if k < 6 then "productivity" else "financial"
  }

  /** The attribute a calculation uses: that of the first pair with the highest risk. */
  ghost predicate Chosen(r: RRARow, a: RRAAttribute) {
    exists k: nat :: IsHighest(Pairs(r), k) && a == RRAAttribute(AttributeName(k), Pairs(r)[k].0, Pairs(r)[k].1)
  }

  /** Some impact and its probability both carry known labels. */
  predicate HasRisk(r: RRARow) {
    exists i :: 0 <= i < 9 && IsLabel(LabelPairs(r)[i].0) && IsLabel(LabelPairs(r)[i].1)
  }

  /** The first highest of three pairs. */
  lemma HighestOfThree(p: seq<(real, real)>) returns (k: nat)
    requires |p| == 3
    ensures IsHighest(p, k) && HighestRisk(p[0], p[1], p[2]) == p[k]
  {
    k := if Product(p[1]) > Product(p[0]) then 1 else 0;
    k := if Product(p[2]) > Product(p[k]) then 2 else k;
  }

  /** The first highest of nine, from those of the three triples. */
  lemma HighestOfNine(p: seq<(real, real)>, kr: nat, kp: nat, kf: nat) returns (k: nat)
    requires |p| == 9
    requires IsHighest(p[..3], kr) && IsHighest(p[3..6], kp) && IsHighest(p[6..], kf)
    ensures IsHighest(p, k)
    ensures
      var r, q, f := Product(p[kr]), Product(p[3 + kp]), Product(p[6 + kf]);
      k == if r >= q && r >= f then kr else if q >= f then 3 + kp else 6 + kf
  {
    var r, q, f := Product(p[kr]), Product(p[3 + kp]), Product(p[6 + kf]);
    forall j | 0 <= j < 9
      ensures j < 3 ==> Product(p[j]) <= r && (j < kr ==> Product(p[j]) < r)
      ensures 3 <= j < 6 ==> Product(p[j]) <= q && (j < 3 + kp ==> Product(p[j]) < q)
      ensures 6 <= j ==> Product(p[j]) <= f && (j < 6 + kf ==> Product(p[j]) < f)
    {
      assert j < 3 ==> p[..3][j] == p[j];
      assert 3 <= j < 6 ==> p[3..6][j - 3] == p[j];
      assert 6 <= j ==> p[6..][j - 6] == p[j];
    }
    k := if r >= q && r >= f then kr else if q >= f then 3 + kp else 6 + kf;
  }

  /* ---------- scenarios ---------- */

  const DERIVED := " derived risk for "

  function ScenarioName(source: string, attribute: string): (name: string)
    ensures name != ""
  {
    source + DERIVED + attribute
  }

  function Score(impact: real, probability: real): real {
    impact * probability
  }

  /** The scenario of the RRA itself: its probability counts as medium at most. */
  function RRAScenario(a: RRAAttribute): RiskScenario {
    var name := ScenarioName("RRA", a.attribute);
    if a.impact != 0.0 && a.probability != 0.0 then
      var probability := if a.probability > 2.0 then 2.0 else a.probability;
      RiskScenario(name, probability, a.impact, Score(a.impact, probability))
    else RiskScenario(name, 0.0, 0.0, 0.0)
  }

  function IndicatorScenario(a: RRAAttribute, source: string, likelihood: real): RiskScenario {
    RiskScenario(ScenarioName(source, a.attribute), likelihood, a.impact, Score(a.impact, likelihood))
  }

  function AssetIndicators(assets: seq<Asset>): seq<Indicator> {
    if assets == [] then []
    else AssetIndicators(assets[..|assets| - 1]) + assets[|assets| - 1].indicators
  }

  /** All indicators of an RRA, through its groups and their assets. */
  function Indicators(groups: seq<AssetGroup>): seq<Indicator> {
    if groups == [] then []
    else Indicators(groups[..|groups| - 1]) + AssetIndicators(groups[|groups| - 1].assets)
  }

  /** The indicators of a document are those of the assets of its groups. */
  lemma {:induction false} IndicatorsOfAssets(assets: seq<Asset>, x: Indicator)
    ensures x in AssetIndicators(assets) <==>
      exists q :: 0 <= q < |assets| && x in assets[q].indicators
  {
    if assets != [] {
      var n := |assets| - 1;
      IndicatorsOfAssets(assets[..n], x);
      assert forall q :: 0 <= q < n ==> assets[..n][q] == assets[q];
    }
  }

  lemma {:induction false} IndicatorsInGroup(groups: seq<AssetGroup>, x: Indicator)
    ensures x in Indicators(groups) <==> exists p :: 0 <= p < |groups| && x in AssetIndicators(groups[p].assets)
  {
    if groups != [] {
      var n := |groups| - 1;
      IndicatorsInGroup(groups[..n], x);
      assert forall p :: 0 <= p < n ==> groups[..n][p] == groups[p];
    }
  }

  lemma IndicatorsOfDocument(groups: seq<AssetGroup>, x: Indicator)
    ensures x in Indicators(groups) <==>
      exists p, q :: 0 <= p < |groups| && 0 <= q < |groups[p].assets| && x in groups[p].assets[q].indicators
  {
    IndicatorsInGroup(groups, x);
    forall p | 0 <= p < |groups|
      ensures x in AssetIndicators(groups[p].assets) <==>
        exists q :: 0 <= q < |groups[p].assets| && x in groups[p].assets[q].indicators
    {
      IndicatorsOfAssets(groups[p].assets, x);
    }
  }

  /** One indicator entered into the table of sources: the higher likelihood stays. */
  function Observe(m: map<string, real>, i: Indicator): map<string, real> {
    var v := ImpactValue(i.likelihood);
    if i.source in m && v <= m[i.source] then m else m[i.source := v]
  }

  function ObserveAll(m: map<string, real>, s: seq<Indicator>): map<string, real> {
    if s == [] then m else Observe(ObserveAll(m, s[..|s| - 1]), s[|s| - 1])
  }

  lemma {:induction false} ObserveConcat(m: map<string, real>, s: seq<Indicator>, t: seq<Indicator>)
    ensures ObserveAll(m, s + t) == ObserveAll(ObserveAll(m, s), t)
  {
    if t == [] {
      assert s + t == s;
    } else {
      ObserveConcat(m, s, t[..|t| - 1]);
      assert (s + t)[..|s + t| - 1] == s + t[..|t| - 1];
    }
  }

  /** m maps exactly the sources seen to the highest likelihood seen from each. */
  ghost predicate HighestPerSource(m: map<string, real>, seen: set<Indicator>) {
    && (forall x :: x in seen ==> x.source in m && ImpactValue(x.likelihood) <= m[x.source])
    && (forall s :: s in m ==> exists x :: x in seen && x.source == s && ImpactValue(x.likelihood) == m[s])
  }

  function Seen(s: seq<Indicator>): set<Indicator> {
    set x | x in s
  }

  lemma {:induction false} ObserveAllHighest(s: seq<Indicator>)
    ensures HighestPerSource(ObserveAll(map[], s), Seen(s))
  {
    if s != [] {
      var front, x := s[..|s| - 1], s[|s| - 1];
      ObserveAllHighest(front);
      assert Seen(s) == Seen(front) + {x};
      var m, m' := ObserveAll(map[], front), ObserveAll(map[], s);
      forall k | k in m' ensures exists y :: y in Seen(s) && y.source == k && ImpactValue(y.likelihood) == m'[k] {
        if k in m && m[k] == m'[k] {
          var y :| y in Seen(front) && y.source == k && ImpactValue(y.likelihood) == m[k];
          assert y in Seen(s);
        } else {
          assert x in Seen(s) && x.source == k;
        }
      }
    }
  }

  /** The table depends only on the set of indicators. */
  lemma HighestUnique(m: map<string, real>, m': map<string, real>, seen: set<Indicator>)
    requires HighestPerSource(m, seen) && HighestPerSource(m', seen)
    ensures m == m'
  {
    forall s ensures s in m <==> s in m' {
    }
    forall s | s in m ensures m[s] == m'[s] {
      var x :| x in seen && x.source == s && ImpactValue(x.likelihood) == m[s];
      var y :| y in seen && y.source == s && ImpactValue(y.likelihood) == m'[s];
    }
  }

  /** The scenarios of the sources, in the order in which the map happens to be walked. */
  function Generated(a: RRAAttribute, m: map<string, real>, order: seq<string>): seq<RiskScenario>
    requires forall s :: s in order ==> s in m
  {
    seq(|order|, i requires 0 <= i < |order| => IndicatorScenario(a, order[i], m[order[i]]))
  }

  /** The order lists each key once. */
  ghost predicate Lists(order: seq<string>, keys: set<string>) {
    && (forall s :: s in order <==> s in keys)
    && (forall i, j :: 0 <= i < j < |order| ==> order[i] != order[j])
  }

  /* ---------- the summary ---------- */

  function Scores(scenarios: seq<RiskScenario>): seq<real> {
    seq(|scenarios|, i requires 0 <= i < |scenarios| => scenarios[i].score)
  }

  function ValueOr0(r: Result<real>): real {
    match r
    case Ok(v) => v
    case Err(_) => 0.0
  }

  function LabelOrEmpty(r: Result<string>): string {
    match r
    case Ok(l) => l
    case Err(_) => ""
  }

  function Summarise(scores: seq<real>, impact: real, defData: string): Summary {
    var impactLabel := LabelOrEmpty(ImpactLabelFromValue(impact));
    var dataClass := ValueOr0(DataValueFromLabel(defData));
    if scores == [] then
      Summary(0.0, "unknown", 0.0, "unknown", 0.0, "unknown", dataClass, impact, impactLabel)
    else
      Summary(
        worstCase := Stats.Max(scores), worstCaseLabel := NormalLabelFromValue(Stats.Max(scores)),
        median := Stats.Median(scores), medianLabel := NormalLabelFromValue(Stats.Median(scores)),
        average := Stats.Mean(scores), averageLabel := NormalLabelFromValue(Stats.Mean(scores)),
        dataClass := dataClass, impact := impact, impactLabel := impactLabel)
  }

  /* ---------- what a calculation may return ---------- */

  /** r is a risk document the calculation can produce for the RRA: the attribute and the
      statistics are determined, the order of the scenarios is not. */
  ghost predicate IsRiskOf(rra: RRA, r: Risk) {
    && r.rra == rra && Chosen(rra.row, r.used)
    && ScenariosAdded([RRAScenario(r.used)], r.used, ObserveAll(map[], Indicators(rra.groups)), r.scenarios)
    && r.summary == Summarise(Scores(r.scenarios), r.used.impact, rra.row.defData)
  }

  /** One scenario for each source, in some order, added to those before. */
  ghost predicate ScenariosAdded(before: seq<RiskScenario>, a: RRAAttribute, m: map<string, real>,
                                 after: seq<RiskScenario>) {
    exists order :: Lists(order, m.Keys) && after == before + Generated(a, m, order)
  }

  ghost predicate GoodIndicators(s: seq<Indicator>) {
    forall x :: x in s ==> IsLabel(x.likelihood)
  }

  /** When the calculation succeeds, in terms of its input. */
  ghost predicate Calculable(rra: RRA) {
    HasRisk(rra.row) && GoodIndicators(Indicators(rra.groups)) && IsDataClass(rra.row.defData)
  }

  const ZERO_ATTRIBUTE := RRAAttribute("", 0.0, 0.0)
  const ZERO_SUMMARY := Summary(0.0, "", 0.0, "", 0.0, "", 0.0, 0.0, "")

  /** The risk document under construction. */
  class RiskDoc {
    const rra: RRA
    var used: RRAAttribute
    var summary: Summary
    var scenarios: seq<RiskScenario>

    constructor (rra: RRA)
      ensures this.rra == rra && scenarios == [] && used == ZERO_ATTRIBUTE && summary == ZERO_SUMMARY
    {
      this.rra, scenarios, used, summary := rra, [], ZERO_ATTRIBUTE, ZERO_SUMMARY;
    }

    function Value(): Risk
      reads this
    {
      Risk(rra, used, summary, scenarios)
    }

    method FindHighestImpact() returns (err: Option<Error>)
      modifies `used
      ensures err.None? <==> HasRisk(rra.row)
      ensures err.None? ==> Chosen(rra.row, used)
      ensures err.Some? ==> used.attribute == ""
    {
      var rep := HighestRiskReputation(rra.row);
      var prd := HighestRiskProductivity(rra.row);
      var fin := HighestRiskFinancial(rra.row);
      ghost var k := BestPair(rra.row);
      var userisk := 0.0;
      var selectattr := "";
      if Product(rep) > userisk {
        userisk, selectattr := Product(rep), "reputation";
      }
      if Product(prd) > userisk {
        userisk, selectattr := Product(prd), "productivity";
      }
      if Product(fin) > userisk {
        userisk, selectattr := Product(fin), "financial";
      }
      DistinctNames();
      used := used.(attribute := selectattr);
      if selectattr == "reputation" {
        used := used.(impact := rep.0, probability := rep.1);
      } else if selectattr == "productivity" {
        used := used.(impact := prd.0, probability := prd.1);
      } else if selectattr == "financial" {
        used := used.(impact := fin.0, probability := fin.1);
      } else {
        return Some(NoValidAttributes);
      }
      return None;
    }

    method AddRRAScenario(src: RRAAttribute) returns (err: Option<Error>)
      modifies `scenarios
      ensures err.None?
      ensures scenarios == old(scenarios) + [RRAScenario(src)]
    {
      var newscen := RiskScenario(ScenarioName("RRA", src.attribute), 0.0, 0.0, 0.0);
      if src.impact != 0.0 && src.probability != 0.0 {
        if src.probability > 2.0 {
          newscen := newscen.(probability := 2.0);
        } else {
          newscen := newscen.(probability := src.probability);
        }
        newscen := newscen.(impact := src.impact);
        newscen := newscen.(score := Score(newscen.impact, newscen.probability));
      }
      err := ValidateScenario(newscen);
      if err.None? {
        scenarios := scenarios + [newscen];
      }
    }

    /** The highest likelihood per source over all groups, assets and indicators. */
    method CollectSources() returns (m: map<string, real>, err: Option<Error>)
      ensures err.None? <==> GoodIndicators(Indicators(rra.groups))
      ensures err.None? ==> m == ObserveAll(map[], Indicators(rra.groups))
    {
      m := map[];
      var groups := rra.groups;
      for g := 0 to |groups|
        invariant m == ObserveAll(map[], Indicators(groups[..g]))
        invariant GoodIndicators(Indicators(groups[..g]))
      {
        assert groups[..g + 1][..g] == groups[..g];
        ObserveConcat(map[], Indicators(groups[..g]), AssetIndicators(groups[g].assets));
        m, err := CollectGroup(m, groups[g].assets);
        if err.Some? {
          BadGroup(groups, g);
          return;
        }
      }
      assert groups[..|groups|] == groups;
      err := None;
    }

    /** The middle loop: one group's assets. */
    static method CollectGroup(m0: map<string, real>, assets: seq<Asset>)
      returns (m: map<string, real>, err: Option<Error>)
      ensures err.None? <==> GoodIndicators(AssetIndicators(assets))
      ensures err.None? ==> m == ObserveAll(m0, AssetIndicators(assets))
    {
      m := m0;
      for a := 0 to |assets|
        invariant m == ObserveAll(m0, AssetIndicators(assets[..a]))
        invariant GoodIndicators(AssetIndicators(assets[..a]))
      {
        assert assets[..a + 1][..a] == assets[..a];
        ObserveConcat(m0, AssetIndicators(assets[..a]), assets[a].indicators);
        m, err := CollectAsset(m, assets[a]);
        if err.Some? {
          BadAsset(assets, a);
          return;
        }
      }
      assert assets[..|assets|] == assets;
      err := None;
    }

    /** The innermost loop: one asset's indicators. */
    static method CollectAsset(m0: map<string, real>, asset: Asset) returns (m: map<string, real>, err: Option<Error>)
      ensures err.None? <==> GoodIndicators(asset.indicators)
      ensures err.None? ==> m == ObserveAll(m0, asset.indicators)
    {
      m := m0;
      var s := asset.indicators;
      for i := 0 to |s|
        invariant m == ObserveAll(m0, s[..i])
        invariant GoodIndicators(s[..i])
      {
        assert s[..i + 1][..i] == s[..i];
        var x := s[i];
        var tv := ImpactValueFromLabel(x.likelihood);
        if tv.Err? {
          assert x in s;
          return m, Some(tv.error);
        }
        if x.source in m {
          if tv.value > m[x.source] {
            m := m[x.source := tv.value];
          }
        } else {
          m := m[x.source := tv.value];
        }
      }
      assert s[..|s|] == s;
      err := None;
    }

    method AddIndicatorScenarios(src: RRAAttribute) returns (err: Option<Error>)
      modifies `scenarios
      ensures err.None? <==> GoodIndicators(Indicators(rra.groups))
      ensures err.Some? ==> scenarios == old(scenarios)
      ensures err.None? ==>
        ScenariosAdded(old(scenarios), src, ObserveAll(map[], Indicators(rra.groups)), scenarios)
    {
      var m: map<string, real>;
      m, err := CollectSources();
      if err.Some? {
        return;
      }
      var rest := m.Keys;
      ghost var order: seq<string> := [];
      while rest != {}
        invariant rest <= m.Keys
        invariant Lists(order, m.Keys - rest)
        invariant scenarios == old(scenarios) + Generated(src, m, order)
        decreases |rest|
      {
        var k :| k in rest;
        rest := rest - {k};
        var newscen := IndicatorScenario(src, k, m[k]);
        err := ValidateScenario(newscen);
        if err.Some? {
          return;
        }
        scenarios := scenarios + [newscen];
        ListsMore(order, m.Keys - rest - {k}, k);
        assert m.Keys - rest - {k} + {k} == m.Keys - rest;
        GeneratedMore(old(scenarios), src, m, order, k);
        order := order + [k];
      }
      assert m.Keys - {} == m.Keys;
      err := None;
    }

    method Finalize() returns (err: Option<Error>)
      modifies `summary
      ensures err.None? <==>
        ImpactLabelFromValue(used.impact).Ok? && (scenarios == [] || IsDataClass(rra.row.defData))
      ensures err.None? ==> summary == Summarise(Scores(scenarios), used.impact, rra.row.defData)
    {
      var rvals: seq<real> := [];
      for i := 0 to |scenarios|
        invariant rvals == Scores(scenarios[..i])
      {
        rvals := rvals + [scenarios[i].score];
      }
      assert scenarios[..|scenarios|] == scenarios;
      var impactLabel := ImpactLabelFromValue(used.impact);
      summary := summary.(impact := used.impact, impactLabel := LabelOrEmpty(impactLabel));
      if impactLabel.Err? {
        return Some(impactLabel.error);
      }
      var dataClass := DataValueFromLabel(rra.row.defData);
      if |rvals| == 0 {
        summary := summary.(median := 0.0, average := 0.0, worstCase := 0.0);
        summary := summary.(medianLabel := "unknown", averageLabel := "unknown", worstCaseLabel := "unknown");
        summary := summary.(dataClass := ValueOr0(dataClass));
        return None;
      }
      summary := summary.(median := Stats.Median(rvals));
      summary := summary.(medianLabel := NormalLabelFromValue(summary.median));
      summary := summary.(average := Stats.Mean(rvals));
      summary := summary.(averageLabel := NormalLabelFromValue(summary.average));
      summary := summary.(worstCase := Stats.Max(rvals));
      summary := summary.(worstCaseLabel := NormalLabelFromValue(summary.worstCase));
      summary := summary.(dataClass := ValueOr0(dataClass));
      if dataClass.Err? {
        return Some(dataClass.error);
      }
      return None;
    }

    /** The whole calculation, on a document that has no scenarios yet. */
    method Calculate() returns (err: Option<Error>)
      requires scenarios == []
      modifies `used, `summary, `scenarios
      ensures err.None? <==> Calculable(rra)
      ensures err.None? ==> IsRiskOf(rra, Value())
    {
      err := FindHighestImpact();
      if err.Some? {
        return;
      }
      ChosenImpact(rra.row, used);
      err := AddRRAScenario(used);
      if err.Some? {
        return;
      }
      assert scenarios == [RRAScenario(used)];
      err := AddIndicatorScenarios(used);
      if err.Some? {
        return;
      }
      err := Finalize();
    }
  }

  lemma DistinctNames()
    ensures "reputation" != "productivity" && "productivity" != "financial" && "financial" != "reputation"
  {
  }

  /** The pair that the three comparisons end with. */
  lemma BestPair(r: RRARow) returns (k: nat)
    ensures IsHighest(Pairs(r), k)
    ensures HasRisk(r) <==> Product(Pairs(r)[k]) > 0.0
    ensures
      var rep, prd, fin := HighestRiskReputation(r), HighestRiskProductivity(r), HighestRiskFinancial(r);
      && (Product(rep) >= Product(prd) && Product(rep) >= Product(fin) ==> k < 3 && Pairs(r)[k] == rep)
      && (Product(rep) < Product(prd) && Product(prd) >= Product(fin) ==> 3 <= k < 6 && Pairs(r)[k] == prd)
      && (Product(rep) < Product(fin) && Product(prd) < Product(fin) ==> 6 <= k && Pairs(r)[k] == fin)
  {
    var p := Pairs(r);
    var kr := HighestOfThree(p[..3]);
    var kp := HighestOfThree(p[3..6]);
    var kf := HighestOfThree(p[6..]);
    k := HighestOfNine(p, kr, kp, kf);
    KnownPair(r, k);
    if HasRisk(r) {
      var i :| 0 <= i < 9 && IsLabel(LabelPairs(r)[i].0) && IsLabel(LabelPairs(r)[i].1);
      KnownPair(r, i);
      assert Product(p[i]) <= Product(p[k]);
    }
  }

  /** A pair has risk exactly when both its labels are known. */
  lemma KnownPair(r: RRARow, i: nat)
    requires i < 9
    ensures Product(Pairs(r)[i]) > 0.0 <==> IsLabel(LabelPairs(r)[i].0) && IsLabel(LabelPairs(r)[i].1)
  {
    var l := LabelPairs(r)[i];
    var p := Pairs(r)[i];
    assert p == Pair(l.0, l.1);
    ZeroProduct(p);
    if IsLabel(l.0) && IsLabel(l.1) {
      PositiveProduct(p);
    }
  }

  lemma PositiveProduct(p: (real, real))
    requires p.0 >= 1.0 && p.1 >= 1.0
    ensures Product(p) >= 1.0
  {
    assert p.0 * p.1 >= p.0;
  }

  lemma BadAsset(assets: seq<Asset>, a: nat)
    requires a < |assets| && !GoodIndicators(assets[a].indicators)
    ensures !GoodIndicators(AssetIndicators(assets))
  {
  }

  lemma BadGroup(groups: seq<AssetGroup>, g: nat)
    requires g < |groups| && !GoodIndicators(AssetIndicators(groups[g].assets))
    ensures !GoodIndicators(Indicators(groups))
  {
  }

  lemma GeneratedMore(before: seq<RiskScenario>, a: RRAAttribute, m: map<string, real>, order: seq<string>, k: string)
    requires (forall s :: s in order ==> s in m) && k in m
    ensures before + Generated(a, m, order + [k]) ==
      before + Generated(a, m, order) + [IndicatorScenario(a, k, m[k])]
  {
  }

  lemma ListsMore(order: seq<string>, keys: set<string>, k: string)
    requires Lists(order, keys) && k !in keys
    ensures Lists(order + [k], keys + {k})
  {
  }

  /** A pair of label values; a zero product has a zero factor. */
  lemma PairRange(r: RRARow, k: nat)
    requires k < 9
    ensures var p := Pairs(r)[k];
      && 0.0 <= p.0 <= 4.0 && 0.0 <= p.1 <= 4.0
      && ImpactLabelFromValue(p.0).Ok?
      && (Product(p) > 0.0 ==> 1.0 <= p.0 && 1.0 <= p.1)
  {
    var l := LabelPairs(r)[k];
    assert Pairs(r)[k] == Pair(l.0, l.1);
    LabelRoundTrip(l.0);
    ZeroProduct(Pairs(r)[k]);
  }

  lemma ZeroProduct(p: (real, real))
    ensures p.0 == 0.0 || p.1 == 0.0 ==> Product(p) == 0.0
  {
  }

  /** The chosen impact and probability are label values, and not zero when there is risk. */
  lemma ChosenImpact(r: RRARow, a: RRAAttribute)
    requires Chosen(r, a)
    ensures ImpactLabelFromValue(a.impact).Ok?
    ensures 0.0 <= a.impact <= 4.0 && 0.0 <= a.probability <= 4.0
    ensures HasRisk(r) ==> 1.0 <= a.impact && 1.0 <= a.probability
  {
    var k: nat :| IsHighest(Pairs(r), k) && a == RRAAttribute(AttributeName(k), Pairs(r)[k].0, Pairs(r)[k].1);
    PairRange(r, k);
    if HasRisk(r) {
      var i :| 0 <= i < 9 && IsLabel(LabelPairs(r)[i].0) && IsLabel(LabelPairs(r)[i].1);
      KnownPair(r, i);
      assert Product(Pairs(r)[i]) <= Product(Pairs(r)[k]);
    }
  }
}
