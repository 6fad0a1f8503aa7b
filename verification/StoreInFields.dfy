/** What the store does to its tables and makes of them, said in the fields of rows, documents
    and submissions alone. */
module StoreInFields {
  import opened Results
  import opened ServiceLib
  import opened Tables
  import opened Database
  import opened RiskCalculation
  import opened RiskInFields
  import opened Store
  import opened RiskCache
  import opened ServiceRuns
  import opened StoreTheorems

  /* ---------- the schema ---------- */

  /** The constraints a state satisfies, one by one: sequences are ahead of the ids in use, keys
      are unique, and references lead somewhere. */
  lemma SchemaMeans(db: Db)
    ensures Consistent(db) <==>
      && (forall g :: g in db.groups.rows ==> g < db.groups.next)
      && (forall o :: o in db.owners.rows ==> o < db.owners.next)
      && (forall a :: a in db.assets.rows ==> a < db.assets.next)
      && (forall r :: r in db.rras.rows ==> r < db.rras.next)
      && (forall i :: i in db.indicators.rows ==> i < db.indicators.next)
      && (forall g, h | g in db.groups.rows && h in db.groups.rows && db.groups.rows[g] == db.groups.rows[h] :: g == h)
      && (forall o, u | o in db.owners.rows && u in db.owners.rows && db.owners.rows[o] == db.owners.rows[u] :: o == u)
      && (forall a, b | a in db.assets.rows && b in db.assets.rows
            && db.assets.rows[a].assettype == db.assets.rows[b].assettype
            && db.assets.rows[a].name == db.assets.rows[b].name
            && db.assets.rows[a].zone == db.assets.rows[b].zone :: a == b)
      && (forall a, g | a in db.assets.rows && db.assets.rows[a].group == Some(g) :: g in db.groups.rows)
      && (forall a, o | a in db.assets.rows && db.assets.rows[a].owner == Some(o) :: o in db.owners.rows)
      && (forall r, q | r in db.rras.rows && q in db.rras.rows && db.rras.rows[r].name == db.rras.rows[q].name
            && db.rras.rows[r].lastUpdated == db.rras.rows[q].lastUpdated :: r == q)
      && (forall m, n | 0 <= m < |db.links| && 0 <= n < |db.links| && db.links[m].rraid == db.links[n].rraid
            && db.links[m].group == db.links[n].group && db.links[m].group.Some? :: m == n)
      && (forall n | 0 <= n < |db.links| :: db.links[n].rraid in db.rras.rows)
      && (forall n, g | 0 <= n < |db.links| && db.links[n].group == Some(g) :: g in db.groups.rows)
      && (forall i, j | i in db.indicators.rows && j in db.indicators.rows
            && db.indicators.rows[i].assetid == db.indicators.rows[j].assetid
            && db.indicators.rows[i].source == db.indicators.rows[j].source
            && db.indicators.rows[i].timestamp == db.indicators.rows[j].timestamp :: i == j)
      && (forall i | i in db.indicators.rows :: db.indicators.rows[i].assetid in db.assets.rows)
      && (forall n | 0 <= n < |db.risks| :: db.risks[n].rraid in db.rras.rows)
  {
  }

  /** What a run that was undone leaves alone. */
  lemma SameRowsMeans(a: Db, b: Db)
    ensures SameRows(a, b) <==>
      && a.groups.rows == b.groups.rows && a.owners.rows == b.owners.rows && a.assets.rows == b.assets.rows
      && a.links == b.links && a.rras.rows == b.rras.rows
      && a.indicators.rows == b.indicators.rows && a.risks == b.risks
  {
  }

  /* ---------- indicator submission ---------- */

  /** An accepted submission adds one indicator row with its time, source and likelihood, on
      the asset of its type, name and zone; that asset is new if there was none, without
      group, owner or override. Everything else is as before. */
  lemma SubmissionAdds(db: Db, s: Submission) returns (i: nat, a: nat)
    requires Consistent(db)
    ensures var e := AfterIndicator(db, s);
      && i !in db.indicators.rows && i in e.indicators.rows
      && (forall k :: k in e.indicators.rows <==> k in db.indicators.rows || k == i)
      && (forall k :: k in db.indicators.rows ==> e.indicators.rows[k] == db.indicators.rows[k])
      && e.indicators.rows[i].timestamp == s.timestamp && e.indicators.rows[i].source == s.source
      && e.indicators.rows[i].likelihood == s.likelihood && e.indicators.rows[i].assetid == a
      && IsAssetOf(db, e, s, a)
  {
    i := db.indicators.next;
    a := AssetId(db, s);
    NewAsset(db, s);
  }

  /** Asset a of the later state is the submission's, new or not; other tables but that of
      the indicators are the same. */
  ghost predicate IsAssetOf(db: Db, e: Db, s: Submission, a: nat) {
    && a in e.assets.rows
    && e.assets.rows[a].assettype == s.assettype && e.assets.rows[a].name == s.name
    && e.assets.rows[a].zone == s.zone
    && (a !in db.assets.rows ==>
          && e.assets.rows[a].group == None && e.assets.rows[a].owner == None && e.assets.rows[a].triage == None
          && e.assets.rows[a].lastIndicator == s.timestamp)
    && (forall b :: b in e.assets.rows <==> b in db.assets.rows || b == a)
    && (forall b :: b in db.assets.rows ==> e.assets.rows[b] == db.assets.rows[b])
    && e.groups == db.groups && e.owners == db.owners && e.rras == db.rras
    && e.links == db.links && e.risks == db.risks
  }

  /** If the insert of the indicator fails, the asset may have been added all the same. */
  lemma NewAsset(db: Db, s: Submission)
    requires Consistent(db)
    ensures IsAssetOf(db, WithAsset(db, s), s, AssetId(db, s))
    ensures WithAsset(db, s).indicators == db.indicators
  {
  }

  /** A submission is a duplicate exactly when its asset has an indicator of its source and
      time already. */
  lemma DuplicateMeans(db: Db, s: Submission)
    requires Consistent(db)
    ensures Duplicate(db, s) <==>
      exists i :: i in db.indicators.rows
        && db.indicators.rows[i].source == s.source && db.indicators.rows[i].timestamp == s.timestamp
        && db.indicators.rows[i].assetid in db.assets.rows
        && db.assets.rows[db.indicators.rows[i].assetid].assettype == s.assettype
        && db.assets.rows[db.indicators.rows[i].assetid].name == s.name
        && db.assets.rows[db.indicators.rows[i].assetid].zone == s.zone
  {
    var f := FindAsset(db.assets.rows, s.assettype, s.name, s.zone);
    if f.Some? {
      assert f == Some(AssetId(db, s));
    }
  }

  /* ---------- RRA submission ---------- */

  /** What is checked of one submitted measure; a missing probability counts as unknown. */
  predicate GoodInFields(t: TextOps, m: RawMeasure) {
    && m.impact != ""
    && t.lower(m.impact) in {"maximum", "high", "medium", "low", "unknown"}
    && t.lower(if m.probability == "" then "unknown" else m.probability)
         in {"maximum", "high", "medium", "low", "unknown"}
  }

  /** When a document is accepted. */
  lemma AcceptedWhen(t: TextOps, d: RawDetails)
    ensures GoodDetails(t, d) <==>
      && d.service != "" && d.default != ""
      && GoodInFields(t, d.risk.availability.reputation) && GoodInFields(t, d.risk.availability.productivity)
      && GoodInFields(t, d.risk.availability.finances)
      && GoodInFields(t, d.risk.confidentiality.reputation) && GoodInFields(t, d.risk.confidentiality.productivity)
      && GoodInFields(t, d.risk.confidentiality.finances)
      && GoodInFields(t, d.risk.integrity.reputation) && GoodInFields(t, d.risk.integrity.productivity)
      && GoodInFields(t, d.risk.integrity.finances)
  {
    MeasureGood(t, d.risk.availability);
    MeasureGood(t, d.risk.confidentiality);
    MeasureGood(t, d.risk.integrity);
  }

  lemma MeasureGood(t: TextOps, a: RawRiskAttr)
    ensures GoodAttr(t, a) <==>
      GoodInFields(t, a.reputation) && GoodInFields(t, a.productivity) && GoodInFields(t, a.finances)
  {
  }

  /** The pair of labels is that of the measure, folded. */
  predicate FoldedFrom(t: TextOps, impact: string, probability: string, m: RawMeasure) {
    impact == t.lower(m.impact) &&
    probability == t.lower(if m.probability == "" then "unknown" else m.probability)
  }

  /** The row of an accepted document: each of its labels in its own column. */
  lemma StoredLabels(t: TextOps, d: RawDetails, lastModified: int)
    requires GoodDetails(t, d)
    ensures var row := ToRow(ValidateDetails(t, d).0, lastModified);
      var av, cf, it := d.risk.availability, d.risk.confidentiality, d.risk.integrity;
      && row.lastUpdated == lastModified
      && FoldedFrom(t, row.availRepImpact, row.availRepProb, av.reputation)
      && FoldedFrom(t, row.availPrdImpact, row.availPrdProb, av.productivity)
      && FoldedFrom(t, row.availFinImpact, row.availFinProb, av.finances)
      && FoldedFrom(t, row.confiRepImpact, row.confiRepProb, cf.reputation)
      && FoldedFrom(t, row.confiPrdImpact, row.confiPrdProb, cf.productivity)
      && FoldedFrom(t, row.confiFinImpact, row.confiFinProb, cf.finances)
      && FoldedFrom(t, row.integRepImpact, row.integRepProb, it.reputation)
      && FoldedFrom(t, row.integPrdImpact, row.integPrdProb, it.productivity)
      && FoldedFrom(t, row.integFinImpact, row.integFinProb, it.finances)
  {
    ValidateAttrAccepts(t, d.risk.confidentiality);
    ValidateAttrAccepts(t, d.risk.integrity);
    ValidateAttrAccepts(t, d.risk.availability);
  }

  /** Its name is the trimmed one with spaces for line breaks; the older data classes are
      renamed. */
  lemma StoredNames(t: TextOps, d: RawDetails, lastModified: int, flat: string)
    requires GoodDetails(t, d)
    requires |flat| == |d.service| &&
      forall i :: 0 <= i < |flat| ==> flat[i] == if d.service[i] == '\n' then ' ' else d.service[i]
    ensures var row := ToRow(ValidateDetails(t, d).0, lastModified);
      && row.name == t.trimSpace(flat)
      && (t.lower(d.default) == "internal" ==> row.defData == "confidential internal")
      && (t.lower(d.default) == "restricted" ==> row.defData == "confidential restricted")
      && (t.lower(d.default) == "secret" ==> row.defData == "confidential secret")
      && (t.lower(d.default) !in {"internal", "restricted", "secret"} ==> row.defData == t.lower(d.default))
  {
    ValidateAccepts(t, d, lastModified);
    assert flat == ReplaceNewlines(d.service);
  }

  /** The row is added unless one of its name and date is there; nothing else changes. */
  lemma DocumentAdds(db: Db, row: RRARow) returns (n: nat)
    requires Consistent(db)
    ensures var e := AfterRRA(db, row);
      && e.groups == db.groups && e.owners == db.owners && e.assets == db.assets
      && e.indicators == db.indicators && e.links == db.links && e.risks == db.risks
      && if exists r :: r in db.rras.rows && db.rras.rows[r].name == row.name
              && db.rras.rows[r].lastUpdated == row.lastUpdated
         then e.rras == db.rras
         else n !in db.rras.rows && e.rras.rows == db.rras.rows[n := row]
  {
    n := db.rras.next;
  }

  /* ---------- the latest indicators of an asset ---------- */

  /** Indicator i has source and time of an indicator on the asset than which none of that
      source on the asset is later. */
  ghost predicate Newest(rows: map<nat, IndicatorRow>, a: nat, i: nat) {
    i in rows &&
    exists j :: j in rows && rows[j].assetid == a
      && rows[j].source == rows[i].source && rows[j].timestamp == rows[i].timestamp
      && forall k :: k in rows && rows[k].assetid == a && rows[k].source == rows[j].source ==>
           rows[k].timestamp <= rows[j].timestamp
  }

  /** These are the indicators the query returns; one of them that is on the asset is at least
      as late as every other of its source there. */
  lemma LatestMeans(rows: map<nat, IndicatorRow>, a: nat, i: nat)
    ensures i in LatestIds(rows, a) <==> Newest(rows, a, i)
    ensures i in LatestIds(rows, a) && rows[i].assetid == a ==>
      forall k :: k in rows && rows[k].assetid == a && rows[k].source == rows[i].source ==>
        rows[k].timestamp <= rows[i].timestamp
  {
    if i in LatestIds(rows, a) {
      var j :| j in rows && NewestOn(rows, a, j) && rows[j].source == rows[i].source
        && rows[j].timestamp == rows[i].timestamp;
    }
    if Newest(rows, a, i) {
      var j :| j in rows && rows[j].assetid == a && rows[j].source == rows[i].source
        && rows[j].timestamp == rows[i].timestamp
        && forall k :: k in rows && rows[k].assetid == a && rows[k].source == rows[j].source ==>
             rows[k].timestamp <= rows[j].timestamp;
      assert NewestOn(rows, a, j);
    }
  }

  /* ---------- the assembled document ---------- */

  /** Link l of the RRA leads to a named group, asset a of whatever type is in that group, and
      stored indicator i is among the latest of a and is what x says. */
  ghost predicate Leads(db: Db, rraid: nat, l: LinkRow, a: nat, i: nat, x: Indicator) {
    && l in db.links && l.rraid == rraid
    && l.group.Some? && l.group.value in db.groups.rows && db.groups.rows[l.group.value] != ""
    && a in db.assets.rows && db.assets.rows[a].group == l.group
    && i in db.indicators.rows && Newest(db.indicators.rows, a, i)
    && x.source == db.indicators.rows[i].source && x.timestamp == db.indicators.rows[i].timestamp
    && x.likelihood == db.indicators.rows[i].likelihood
  }

  /** An indicator is somewhere in the document exactly when the tables lead to it. */
  lemma DocumentHolds(db: Db, rraid: nat, rra: RRA, x: Indicator)
    requires IsRRA(db, rraid, rra) && rraid in db.rras.rows
    ensures rra.row == db.rras.rows[rraid]
    ensures (exists p, q :: 0 <= p < |rra.groups| && 0 <= q < |rra.groups[p].assets|
               && x in rra.groups[p].assets[q].indicators) <==>
      exists l, a, i :: Leads(db, rraid, l, a, i, x)
  {
    IndicatorsOfDocument(rra.groups, x);
    assert x in Indicators(rra.groups) <==> x in LinkedIndicators(db, rraid);
    if x in LinkedIndicators(db, rraid) {
      var l, a, i := LinkedLead(db, rraid, x);
    }
    if l, a, i :| Leads(db, rraid, l, a, i, x) {
      LeadsLinked(db, rraid, l, a, i, x);
    }
  }

  /** A risk computed from the tables is a finished risk of the stored row and of a document
      that holds what the tables lead to. */
  lemma RiskMeans(db: Db, rraid: nat, r: Risk, x: Indicator)
    requires RiskOf(db, rraid, r)
    ensures rraid in db.rras.rows && r.rra.row == db.rras.rows[rraid] && IsRiskOf(r.rra, r)
    ensures (exists p, q :: 0 <= p < |r.rra.groups| && 0 <= q < |r.rra.groups[p].assets|
               && x in r.rra.groups[p].assets[q].indicators) <==>
      exists l, a, i :: Leads(db, rraid, l, a, i, x)
  {
    DocumentHolds(db, rraid, r.rra, x);
  }

  /** Every group of a document is a linked one that has a name, with its stored name and its
      assets, each of them once. */
  lemma DocumentGroup(db: Db, rraid: nat, groups: seq<AssetGroup>, p: nat)
    requires GroupsAre(db, db.links, rraid, groups) && p < |groups|
    ensures var g := groups[p];
      && g.id in db.groups.rows && g.name == db.groups.rows[g.id] && g.name != ""
      && LinkRow(rraid, Some(g.id)) in db.links
      && (forall q :: 0 <= q < |g.assets| ==>
            g.assets[q].id in db.assets.rows && db.assets.rows[g.assets[q].id].group == Some(g.id))
      && (forall a :: a in db.assets.rows && db.assets.rows[a].group == Some(g.id) ==>
            exists q :: 0 <= q < |g.assets| && g.assets[q].id == a)
      && |g.assets| == |set a | a in db.assets.rows && db.assets.rows[a].group == Some(g.id)|
  {
    var g := groups[p];
    var l :| l in db.links && l.rraid == rraid && l.group == Some(g.id);
    GroupMeans(db, g);
  }

  lemma GroupMeans(db: Db, g: AssetGroup)
    requires GroupIs(db, g)
    ensures forall q :: 0 <= q < |g.assets| ==>
      g.assets[q].id in db.assets.rows && db.assets.rows[g.assets[q].id].group == Some(g.id)
    ensures forall a :: a in db.assets.rows && db.assets.rows[a].group == Some(g.id) ==>
      exists q :: 0 <= q < |g.assets| && g.assets[q].id == a
    ensures |g.assets| == |set a | a in db.assets.rows && db.assets.rows[a].group == Some(g.id)|
  {
    assert forall q :: 0 <= q < |g.assets| ==> AssetIs(db, g.id, g.assets[q]);
    assert (set a | a in db.assets.rows && db.assets.rows[a].group == Some(g.id)) == Members(db, g.id);
    forall a | a in db.assets.rows && db.assets.rows[a].group == Some(g.id)
      ensures exists q :: 0 <= q < |g.assets| && g.assets[q].id == a
    {
      assert HasAsset(g.assets, a);
    }
  }

  /** And every linked group that has a name is there, once. */
  lemma DocumentHasGroup(db: Db, rraid: nat, groups: seq<AssetGroup>, g: nat)
    requires GroupsAre(db, db.links, rraid, groups)
    requires g in db.groups.rows && db.groups.rows[g] != "" && LinkRow(rraid, Some(g)) in db.links
    ensures exists p :: 0 <= p < |groups| && groups[p].id == g
    ensures |groups| == |set l | l in db.links && l.rraid == rraid && l.group.Some? && l.group.value in db.groups.rows
                                   && db.groups.rows[l.group.value] != "" :: l.group.value|
  {
    var l := LinkRow(rraid, Some(g));
    assert l in db.links && l.group.value in LinkedGroups(db, db.links, rraid);
    assert HasGroup(groups, g);
  }

  lemma LinkedLead(db: Db, rraid: nat, x: Indicator) returns (l: LinkRow, a: nat, i: nat)
    requires x in LinkedIndicators(db, rraid)
    ensures Leads(db, rraid, l, a, i, x)
  {
    var g :| g in LinkedGroups(db, db.links, rraid) && x in GroupIndicators(db, g);
    l :| l in db.links && l.rraid == rraid && l.group == Some(g) && g in db.groups.rows && db.groups.rows[g] != "";
    a :| a in db.assets.rows && db.assets.rows[a].group == Some(g) && x in LatestIndicators(db.indicators.rows, a);
    i :| i in LatestIds(db.indicators.rows, a) && x == ToIndicator(db.indicators.rows[i]);
    LatestMeans(db.indicators.rows, a, i);
  }

  lemma LeadsLinked(db: Db, rraid: nat, l: LinkRow, a: nat, i: nat, x: Indicator)
    requires Leads(db, rraid, l, a, i, x)
    ensures x in LinkedIndicators(db, rraid)
  {
    LatestMeans(db.indicators.rows, a, i);
    assert x == ToIndicator(db.indicators.rows[i]);
    assert x in LatestIndicators(db.indicators.rows, a);
    assert x in GroupIndicators(db, l.group.value);
    assert l.group.value in LinkedGroups(db, db.links, rraid);
  }

  /** In a state with known labels, the risk of an RRA can be computed exactly when its class
      is one of five, it has a name, and each of its links has a group. */
  lemma ComputableMeans(db: Db, rraid: nat)
    requires Sound(db) && rraid in db.rras.rows
    ensures Computable(db, rraid) <==>
      && db.rras.rows[rraid].defData in
           {"confidential secret", "confidential restricted", "confidential internal", "public", "unknown"}
      && db.rras.rows[rraid].name != ""
      && forall n :: 0 <= n < |db.links| && db.links[n].rraid == rraid ==> db.links[n].group.Some?
  {
    ComputableWhenSound(db, rraid);
    if n :| 0 <= n < |db.links| && db.links[n].rraid == rraid && db.links[n].group.None? {
      assert db.links[n] == LinkRow(rraid, None);
    }
  }

  /* ---------- the cache ---------- */

  /** A reader with the cache on is given a risk of the tables, or that of a newest cached row
      of the RRA which is less than 14400 seconds old. */
  lemma GivenMeans(db: Db, rraid: nat, now: int, r: Risk)
    ensures Given(db, true, rraid, now, r) <==>
      || RiskOf(db, rraid, r)
      || exists n :: 0 <= n < |db.risks| && db.risks[n].rraid == rraid && db.risks[n].risk == r
           && db.risks[n].timestamp > now - 14400
           && forall m :: 0 <= m < |db.risks| && db.risks[m].rraid == rraid ==>
                db.risks[m].timestamp <= db.risks[n].timestamp
  {
    if n: int :| 0 <= n < |db.risks| && db.risks[n].rraid == rraid && db.risks[n].risk == r
                 && db.risks[n].timestamp > now - 14400
                 && forall m :: 0 <= m < |db.risks| && db.risks[m].rraid == rraid ==>
                      db.risks[m].timestamp <= db.risks[n].timestamp
    {
      assert NewestRow(db.risks, rraid, db.risks[n]);
    }
  }

  /** The cache decides exactly when there is a row of the RRA less than 14400 seconds old. */
  lemma HasFreshMeans(db: Db, rraid: nat, now: int)
    ensures HasFresh(db, rraid, now) <==>
      exists n :: 0 <= n < |db.risks| && db.risks[n].rraid == rraid && db.risks[n].timestamp > now - 14400
  {
  }

  /** What is said of the rows a sweep adds: they are risks of RRAs that had no cached row after
      the cutoff, one for each, in the order of their times. */
  lemma SweptMeans(db: Db, cutoff: int, added: seq<RiskRow>, start: int, end: int)
    requires Swept(db, added, start, end) && OnlyStale(db, cutoff, added)
    ensures forall k :: 0 <= k < |added| ==>
      && RiskOf(db, added[k].rraid, added[k].risk) && start <= added[k].timestamp <= end
      && forall n :: 0 <= n < |db.risks| && db.risks[n].rraid == added[k].rraid ==> db.risks[n].timestamp <= cutoff
    ensures forall j, k :: 0 <= j < k < |added| ==>
      added[j].rraid != added[k].rraid && added[j].timestamp <= added[k].timestamp
  {
    forall k | 0 <= k < |added| ensures RiskOf(db, added[k].rraid, added[k].risk) {
      assert IsRefresh(db, added, k);
    }
    assert forall k :: 0 <= k < |added| ==> Stale(db, added[k].rraid, cutoff);
  }

  /** An RRA is stale when it has no cached row after the cutoff, and after a sweep those are
      the ones whose new row is not. */
  lemma StaleMeans(db: Db, cutoff: int, added: seq<RiskRow>, r: nat)
    ensures Stale(db, r, cutoff) <==>
      r in db.rras.rows &&
      forall n :: 0 <= n < |db.risks| && db.risks[n].rraid == r ==> db.risks[n].timestamp <= cutoff
    ensures StaleAre(db, cutoff, added) && r in db.rras.rows ==>
      ((exists n :: 0 <= n < |db.risks| && db.risks[n].rraid == r && db.risks[n].timestamp > cutoff) <==>
       forall k :: 0 <= k < |added| && added[k].rraid == r ==> added[k].timestamp > cutoff)
  {
    if StaleAre(db, cutoff, added) {
      assert Stale(db, r, cutoff) <==>
        exists k :: 0 <= k < |added| && added[k].rraid == r && added[k].timestamp <= cutoff;
    }
  }

  /** A listing of risks has one for each RRA listed, in the same order. */
  lemma AnswersMean(db: Db, ids: seq<nat>, now: int, risks: seq<Risk>)
    ensures Answers(db, ids, now, risks) <==>
      |risks| == |ids| && forall i :: 0 <= i < |ids| ==> Given(db, true, ids[i], now, risks[i])
  {
  }

  /** Nothing is stale exactly when every RRA has a cached row after the cutoff. */
  lemma NothingStaleMeans(db: Db, cutoff: int)
    ensures NothingStale(db, cutoff) <==>
      forall r :: r in db.rras.rows ==>
        exists n :: 0 <= n < |db.risks| && db.risks[n].rraid == r && db.risks[n].timestamp > cutoff
  {
    if NothingStale(db, cutoff) {
      forall r | r in db.rras.rows
        ensures exists n :: 0 <= n < |db.risks| && db.risks[n].rraid == r && db.risks[n].timestamp > cutoff
      {
        assert !Stale(db, r, cutoff);
      }
    }
  }
}
