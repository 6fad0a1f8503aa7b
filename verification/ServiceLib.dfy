/** Result types shared by all modules. */
module Results {
  datatype Option<+T> = None | Some(value: T)

  datatype Error =
    | InvalidLabel
    | MissingField
    | NoValidAttributes
    | Statement      // the database rejected a statement
    | NullColumn     // a NULL was read into a plain integer

  datatype Result<+T> = Ok(value: T) | Err(error: Error)
}

/** Labels, RRA documents and risk documents. */
module ServiceLib {
  import opened Results

  /* ---------- labels ---------- */

  predicate IsLabel(l: string) {
    l == "maximum" || l == "high" || l == "medium" || l == "low" || l == "unknown"
  }

  function ImpactValueFromLabel(l: string): (r: Result<real>)
    ensures r.Ok? <==> IsLabel(l)
    ensures r.Ok? ==> 1.0 <= r.value <= 4.0
  {
    if l == "maximum" then Ok(4.0)
    else if l == "high" then Ok(3.0)
    else if l == "medium" then Ok(2.0)
    else if l == "low" then Ok(1.0)
    else if l == "unknown" then Ok(1.0)
    else Err(InvalidLabel)
  }

  /** The value a caller gets that ignores the error: zero for an unknown label. */
  function ImpactValue(l: string): (v: real)
    ensures if IsLabel(l) then 1.0 <= v <= 4.0 else v == 0.0
  {
    match ImpactValueFromLabel(l)
    case Ok(v) => v
    case Err(_) => 0.0
  }

  function ImpactLabelFromValue(v: real): Result<string> {
    if v == 4.0 then Ok("maximum")
    else if v == 3.0 then Ok("high")
    else if v == 2.0 then Ok("medium")
    else if v == 1.0 then Ok("low")
    else if v == 0.0 then Ok("unknown")
    else Err(InvalidLabel)
  }

  /** A label survives the trip through its value, except that "unknown" counts as "low". */
  lemma LabelRoundTrip(l: string)
    ensures ImpactLabelFromValue(ImpactValue(l)) ==
      Ok(if l == "unknown" then "low" else if IsLabel(l) then l else "unknown")
  {
  }

  predicate IsDataClass(l: string) {
    l == "confidential secret" || l == "confidential restricted" ||
    l == "confidential internal" || l == "public" || l == "unknown"
  }

  function DataValueFromLabel(l: string): (r: Result<real>)
    ensures r.Ok? <==> IsDataClass(l)
  {
    if l == "confidential secret" then Ok(4.0)
    else if l == "confidential restricted" then Ok(3.0)
    else if l == "confidential internal" then Ok(2.0)
    else if l == "public" then Ok(1.0)
    else if l == "unknown" then Ok(0.0)
    else Err(InvalidLabel)
  }

  function NormalLabelFromValue(v: real): string {
    if v >= 13.0 then "maximum" else if v >= 9.0 then "high" else if v >= 5.0 then "medium" else "low"
  }

  /** Severity order of the labels of a finished risk. */
  function Severity(l: string): int {
    if l == "maximum" then 3 else if l == "high" then 2 else if l == "medium" then 1 else 0
  }

  lemma SeverityMonotone(v: real, w: real)
    requires v <= w
    ensures Severity(NormalLabelFromValue(v)) <= Severity(NormalLabelFromValue(w))
  {
  }

  /* ---------- documents ---------- */

  /** One row of the rra table: service name, date, data class, nine impact labels and
      nine probability labels. */
  datatype RRARow = RRARow(
    name: string, lastUpdated: int, defData: string,
    availRepImpact: string, availPrdImpact: string, availFinImpact: string,
    integRepImpact: string, integPrdImpact: string, integFinImpact: string,
    confiRepImpact: string, confiPrdImpact: string, confiFinImpact: string,
    availRepProb: string, availPrdProb: string, availFinProb: string,
    integRepProb: string, integPrdProb: string, integFinProb: string,
    confiRepProb: string, confiPrdProb: string, confiFinProb: string)

  datatype Indicator = Indicator(source: string, timestamp: int, likelihood: string)

  datatype Asset = Asset(id: nat, indicators: seq<Indicator>)

  datatype AssetGroup = AssetGroup(id: nat, name: string, assets: seq<Asset>)

  datatype RRA = RRA(row: RRARow, groups: seq<AssetGroup>)

  datatype RRAAttribute = RRAAttribute(attribute: string, impact: real, probability: real)

  datatype RiskScenario = RiskScenario(name: string, probability: real, impact: real, score: real)

  datatype Summary = Summary(
    worstCase: real, worstCaseLabel: string,
    median: real, medianLabel: string,
    average: real, averageLabel: string,
    dataClass: real, impact: real, impactLabel: string)

  datatype Risk = Risk(rra: RRA, used: RRAAttribute, summary: Summary, scenarios: seq<RiskScenario>)

  function ValidateScenario(s: RiskScenario): Option<Error> {
    if s.name == "" then Some(MissingField) else None
  }

  function ValidateRisk(r: Risk): Option<Error> {
    if r.rra.row.name == "" then Some(MissingField) else None
  }

  /* ---------- the attribute with the highest risk ---------- */

  /** Best of the availability, confidentiality and integrity pairs of one impact type;
      a later pair must be strictly better to win. */
  function HighestRisk(av: (real, real), cf: (real, real), it: (real, real)): (real, real) {
    var first := if cf.0 * cf.1 > av.0 * av.1 then cf else av;
    if it.0 * it.1 > first.0 * first.1 then it else first
  }

  function Pair(impact: string, probability: string): (real, real) {
    (ImpactValue(impact), ImpactValue(probability))
  }

  function HighestRiskReputation(r: RRARow): (real, real) {
    HighestRisk(Pair(r.availRepImpact, r.availRepProb), Pair(r.confiRepImpact, r.confiRepProb),
                Pair(r.integRepImpact, r.integRepProb))
  }

  function HighestRiskProductivity(r: RRARow): (real, real) {
    HighestRisk(Pair(r.availPrdImpact, r.availPrdProb), Pair(r.confiPrdImpact, r.confiPrdProb),
                Pair(r.integPrdImpact, r.integPrdProb))
  }

  function HighestRiskFinancial(r: RRARow): (real, real) {
    HighestRisk(Pair(r.availFinImpact, r.availFinProb), Pair(r.confiFinImpact, r.confiFinProb),
                Pair(r.integFinImpact, r.integFinProb))
  }

  /* ---------- submitted documents and their normalisation ---------- */

  /** The two library functions on text that depend on Unicode tables, left uninterpreted. */
  datatype TextOps = TextOps(lower: string -> string, trimSpace: string -> string)

  datatype RawMeasure = RawMeasure(impact: string, probability: string)

  datatype RawRiskAttr = RawRiskAttr(reputation: RawMeasure, finances: RawMeasure, productivity: RawMeasure)

  datatype RawRisk = RawRisk(confidentiality: RawRiskAttr, integrity: RawRiskAttr, availability: RawRiskAttr)

  datatype RawDetails = RawDetails(service: string, risk: RawRisk, default: string)

  function SanitizeImpactLabel(t: TextOps, l: string): (string, Option<Error>) {
    if l == "" then ("", Some(MissingField))
    else
      var ret := t.lower(l);
      (ret, if IsLabel(ret) then None else Some(InvalidLabel))
  }

  function ValidateMeasure(t: TextOps, m: RawMeasure): (RawMeasure, Option<Error>) {
    var (impact, e) := SanitizeImpactLabel(t, m.impact);
    if e.Some? then (m.(impact := impact), e)
    else
      var given := if m.probability == "" then "unknown" else m.probability;
      var (probability, e2) := SanitizeImpactLabel(t, given);
      (RawMeasure(impact, probability), e2)
  }

  function ValidateAttr(t: TextOps, a: RawRiskAttr): (RawRiskAttr, Option<Error>) {
    var (reputation, e) := ValidateMeasure(t, a.reputation);
    if e.Some? then (a.(reputation := reputation), e)
    else
      var (finances, e2) := ValidateMeasure(t, a.finances);
      if e2.Some? then (RawRiskAttr(reputation, finances, a.productivity), e2)
      else
        var (productivity, e3) := ValidateMeasure(t, a.productivity);
        (RawRiskAttr(reputation, finances, productivity), e3)
  }

  function ValidateRawRisk(t: TextOps, r: RawRisk): (RawRisk, Option<Error>) {
    var (confidentiality, e) := ValidateAttr(t, r.confidentiality);
    if e.Some? then (r.(confidentiality := confidentiality), e)
    else
      var (integrity, e2) := ValidateAttr(t, r.integrity);
      if e2.Some? then (RawRisk(confidentiality, integrity, r.availability), e2)
      else
        var (availability, e3) := ValidateAttr(t, r.availability);
        (RawRisk(confidentiality, integrity, availability), e3)
  }

  function ReplaceNewlines(s: string): (r: string)
    ensures |r| == |s|
    ensures forall i :: 0 <= i < |s| ==> r[i] == if s[i] == '\n' then ' ' else s[i]
  {
    seq(|s|, i requires 0 <= i < |s| => if s[i] == '\n' then ' ' else s[i])
  }

  function ServiceName(t: TextOps, service: string): string {
    t.trimSpace(ReplaceNewlines(service))
  }

  /** The data class after folding case and renaming the older classifications. */
  function DataClass(t: TextOps, default: string): string {
    var l := t.lower(default);
    if l == "internal" then "confidential internal"
    else if l == "restricted" then "confidential restricted"
    else if l == "secret" then "confidential secret"
    else l
  }

  /** The rewritten details and the first error, in the order of the checks. */
  function ValidateDetails(t: TextOps, d: RawDetails): (RawDetails, Option<Error>) {
    if d.service == "" then (d, Some(MissingField))
    else
      var named := d.(service := ServiceName(t, d.service));
      var (risk, e) := ValidateRawRisk(t, d.risk);
      if e.Some? then (named.(risk := risk), e)
      else if d.default == "" then (named.(risk := risk), Some(MissingField))
      else (named.(risk := risk, default := DataClass(t, d.default)), None)
  }

  /** What a submitter can check before sending. */
  predicate GoodMeasure(t: TextOps, m: RawMeasure) {
    m.impact != "" && IsLabel(t.lower(m.impact)) &&
    IsLabel(t.lower(if m.probability == "" then "unknown" else m.probability))
  }

  predicate GoodAttr(t: TextOps, a: RawRiskAttr) {
    GoodMeasure(t, a.reputation) && GoodMeasure(t, a.finances) && GoodMeasure(t, a.productivity)
  }

  predicate GoodDetails(t: TextOps, d: RawDetails) {
    d.service != "" && d.default != "" &&
    GoodAttr(t, d.risk.confidentiality) && GoodAttr(t, d.risk.integrity) && GoodAttr(t, d.risk.availability)
  }

  class RawRRA {
    var details: RawDetails
    var lastModified: int

    constructor (details: RawDetails, lastModified: int)
      ensures this.details == details && this.lastModified == lastModified
    {
      this.details, this.lastModified := details, lastModified;
    }

    method Validate(t: TextOps) returns (err: Option<Error>)
      modifies `details
      ensures (details, err) == ValidateDetails(t, old(details))
      ensures err.None? <==> GoodDetails(t, old(details))
      ensures err.None? ==> Normalised(ToRow(details, lastModified))
    {
      ValidateAccepts(t, details, lastModified);
      if details.service == "" {
        return Some(MissingField);
      }
      details := details.(service := ServiceName(t, details.service));
      var (risk, e) := ValidateRawRisk(t, details.risk);
      details := details.(risk := risk);
      if e.Some? {
        return e;
      }
      if details.default == "" {
        return Some(MissingField);
      }
      details := details.(default := DataClass(t, details.default));
      return None;
    }
  }

  /** The conversion of a raw document into a table row. */
  function ToRow(d: RawDetails, lastModified: int): RRARow {
    var av, it, cf := d.risk.availability, d.risk.integrity, d.risk.confidentiality;
    RRARow(
      name := d.service, lastUpdated := lastModified, defData := d.default,
      availRepImpact := av.reputation.impact, availPrdImpact := av.productivity.impact,
      availFinImpact := av.finances.impact,
      integRepImpact := it.reputation.impact, integPrdImpact := it.productivity.impact,
      integFinImpact := it.finances.impact,
      confiRepImpact := cf.reputation.impact, confiPrdImpact := cf.productivity.impact,
      confiFinImpact := cf.finances.impact,
      availRepProb := av.reputation.probability, availPrdProb := av.productivity.probability,
      availFinProb := av.finances.probability,
      integRepProb := it.reputation.probability, integPrdProb := it.productivity.probability,
      integFinProb := it.finances.probability,
      confiRepProb := cf.reputation.probability, confiPrdProb := cf.productivity.probability,
      confiFinProb := cf.finances.probability)
  }

  /** The nine (impact, probability) pairs, in the order in which ties are decided:
      reputation, productivity, financial, and within each availability,
      confidentiality, integrity. */
  function LabelPairs(r: RRARow): seq<(string, string)> {
    [(r.availRepImpact, r.availRepProb), (r.confiRepImpact, r.confiRepProb), (r.integRepImpact, r.integRepProb),
     (r.availPrdImpact, r.availPrdProb), (r.confiPrdImpact, r.confiPrdProb), (r.integPrdImpact, r.integPrdProb),
     (r.availFinImpact, r.availFinProb), (r.confiFinImpact, r.confiFinProb), (r.integFinImpact, r.integFinProb)]
  }

  /** Every label of the row is one of the five known ones. */
  predicate Normalised(r: RRARow) {
    forall i :: 0 <= i < 9 ==> IsLabel(LabelPairs(r)[i].0) && IsLabel(LabelPairs(r)[i].1)
  }

  /** The folded labels of one submitted measure; a missing probability is "unknown". */
  function Folded(t: TextOps, m: RawMeasure): (string, string) {
    (t.lower(m.impact), t.lower(if m.probability == "" then "unknown" else m.probability))
  }

  /** The document's nine measures, folded, in the order of LabelPairs. */
  function FoldedPairs(t: TextOps, r: RawRisk): seq<(string, string)> {
    var av, cf, it := r.availability, r.confidentiality, r.integrity;
    [Folded(t, av.reputation), Folded(t, cf.reputation), Folded(t, it.reputation),
     Folded(t, av.productivity), Folded(t, cf.productivity), Folded(t, it.productivity),
     Folded(t, av.finances), Folded(t, cf.finances), Folded(t, it.finances)]
  }

  lemma ValidateAttrAccepts(t: TextOps, a: RawRiskAttr)
    ensures ValidateAttr(t, a).1.None? <==> GoodAttr(t, a)
    ensures GoodAttr(t, a) ==> Carries(t, ValidateAttr(t, a).0, a)
  {
  }

  /** Validation accepts exactly the good documents, and the row made from an accepted one
      carries in each of its nine places the folded labels of the measure submitted there. */
  lemma ValidateAccepts(t: TextOps, d: RawDetails, lastModified: int)
    ensures ValidateDetails(t, d).1.None? <==> GoodDetails(t, d)
    ensures GoodDetails(t, d) ==>
      var row := ToRow(ValidateDetails(t, d).0, lastModified);
      && row.name == ServiceName(t, d.service)
      && row.defData == DataClass(t, d.default)
      && row.lastUpdated == lastModified
      && LabelPairs(row) == FoldedPairs(t, d.risk)
      && Normalised(row)
  {
    ValidateAttrAccepts(t, d.risk.confidentiality);
    ValidateAttrAccepts(t, d.risk.integrity);
    ValidateAttrAccepts(t, d.risk.availability);
    if GoodDetails(t, d) {
      RowOfGood(t, d, ValidateDetails(t, d).0, lastModified);
    }
  }

  predicate Carries(t: TextOps, b: RawRiskAttr, a: RawRiskAttr) {
    && (b.reputation.impact, b.reputation.probability) == Folded(t, a.reputation)
    && (b.finances.impact, b.finances.probability) == Folded(t, a.finances)
    && (b.productivity.impact, b.productivity.probability) == Folded(t, a.productivity)
  }

  lemma RowOfGood(t: TextOps, d: RawDetails, e: RawDetails, lastModified: int)
    requires GoodDetails(t, d)
    requires Carries(t, e.risk.confidentiality, d.risk.confidentiality)
    requires Carries(t, e.risk.integrity, d.risk.integrity)
    requires Carries(t, e.risk.availability, d.risk.availability)
    ensures LabelPairs(ToRow(e, lastModified)) == FoldedPairs(t, d.risk)
    ensures Normalised(ToRow(e, lastModified))
  {
  }

  /** An indicator as an event publisher submits it; timestamp 0 is the zero time. */
  class RawIndicator {
    var assettype: string
    var name: string
    var zone: string
    var timestamp: int
    var source: string
    var likelihood: string

    constructor (assettype: string, name: string, zone: string, timestamp: int, source: string, likelihood: string)
      ensures this.assettype == assettype && this.name == name && this.zone == zone
      ensures this.timestamp == timestamp && this.source == source && this.likelihood == likelihood
    {
      this.assettype, this.name, this.zone := assettype, name, zone;
      this.timestamp, this.source, this.likelihood := timestamp, source, likelihood;
    }

    predicate Complete()
      reads this
    {
      assettype != "" && name != "" && source != "" && timestamp != 0
    }

    method Validate(t: TextOps) returns (err: Option<Error>)
      modifies `likelihood
      ensures likelihood == if Complete() then t.lower(old(likelihood)) else old(likelihood)
      ensures err.None? <==> Complete() && IsLabel(likelihood)
    {
      if assettype == "" || name == "" || source == "" || timestamp == 0 {
        return Some(MissingField);
      }
      likelihood := t.lower(likelihood);
      if !IsLabel(likelihood) {
        return Some(InvalidLabel);
      }
      return None;
    }
  }
}
