/** What the store promises: the selections of its queries, and over every run of the service
    the freshness of its cache and when a risk can be computed. */
module StoreTheorems {
  import opened Rules
  import opened ServiceLib
  import opened Database
  import opened InterlinkSpec
  import opened InterlinkTheorems
  import opened InterlinkPartial
  import RiskTheorems
  import opened Store
  import opened RiskCache
  import opened ServiceRuns

  /* ---------- the latest indicators of an asset ---------- */

  /** Among indicators on the asset there is a newest one of each source. */
  lemma NewestExists(rows: map<nat, IndicatorRow>, aid: nat, i: nat) returns (j: nat)
    requires i in rows && rows[i].assetid == aid
    ensures NewestOn(rows, aid, j) && rows[j].source == rows[i].source
  {
    var times := map k | k in rows && rows[k].assetid == aid && rows[k].source == rows[i].source :: rows[k].timestamp;
    j := LatestOf(times, i);
    assert forall k :: k in rows && rows[k].assetid == aid && rows[k].source == rows[i].source ==> k in times;
  }

  /** Among ids with times there is one with a maximal time. */
  lemma {:induction false} LatestOf(times: map<nat, int>, i: nat) returns (j: nat)
    requires i in times
    ensures j in times && forall k :: k in times ==> times[k] <= times[j]
    decreases |times|
  {
    if k :| k in times && k != i {
      var rest := times - {k};
      assert rest.Keys == times.Keys - {k};
      j := LatestOf(rest, i);
      assert forall m :: m in times ==> m == k || m in rest;
      if times[k] > times[j] {
        j := k;
      }
    } else {
      j := i;
    }
  }

  /** The query always returns the asset's newest indicator of each source. It returns only
      that one exactly when no other asset has an indicator of the same source and time. */
  lemma LatestExact(rows: map<nat, IndicatorRow>, aid: nat, j: nat)
    requires IndicatorKey(rows) && NewestOn(rows, aid, j)
    ensures j in LatestIds(rows, aid)
    ensures (forall i :: i in LatestIds(rows, aid) && rows[i].source == rows[j].source ==> i == j) <==>
      !exists k :: k in rows && rows[k].assetid != aid && rows[k].source == rows[j].source
                     && rows[k].timestamp == rows[j].timestamp
  {
  }

  /** A concrete case: two assets with an indicator of the same source and time. */
  lemma ForeignIndicator()
    ensures var rows := map[0 := IndicatorRow(5, "scan", "low", 1), 1 := IndicatorRow(5, "scan", "maximum", 2)];
      LatestIds(rows, 1) == {0, 1}
  {
    var rows := map[0 := IndicatorRow(5, "scan", "low", 1), 1 := IndicatorRow(5, "scan", "maximum", 2)];
    assert NewestOn(rows, 1, 0);
  }

  /* ---------- the latest RRA of a service ---------- */

  /** The selection holds exactly one RRA of each service, and it has the maximal date. */
  lemma OneLatest(rras: map<nat, RRARow>, id: nat) returns (j: nat)
    requires RRAKey(rras) && id in rras
    ensures j in Latest(rras) && rras[j].name == rras[id].name && rras[id].lastUpdated <= rras[j].lastUpdated
    ensures forall k :: k in Latest(rras) && rras[k].name == rras[id].name ==> k == j
  {
    var times := map k | k in rras && rras[k].name == rras[id].name :: rras[k].lastUpdated;
    j := LatestOf(times, id);
    assert forall k :: k in rras && rras[k].name == rras[id].name ==> k in times;
    forall k | k in Latest(rras) && rras[k].name == rras[id].name ensures k == j {
      assert rras[j].lastUpdated <= rras[k].lastUpdated <= rras[j].lastUpdated;
    }
  }

  /** Once a document has been stored, any document of its name and date changes nothing,
      however much later it comes and whatever happened in between. */
  lemma {:induction false} ResubmissionIgnored(matches: Matcher, ws: seq<World>, actions: seq<Action>, i: nat, j: nat,
                                               row: RRARow)
    requires IsExecution(matches, ws, actions) && i <= j < |ws|
    requires Submitted(ws[i].db.rras.rows, row)
    ensures Submitted(ws[j].db.rras.rows, row) && AfterRRA(ws[j].db, row) == ws[j].db
    decreases j - i
  {
    if i < j {
      SubmittedNext(matches, ws, actions, i, row);
      ResubmissionIgnored(matches, ws, actions, i + 1, j, row);
    }
  }

  lemma SubmittedNext(matches: Matcher, ws: seq<World>, actions: seq<Action>, i: nat, row: RRARow)
    requires IsExecution(matches, ws, actions) && i < |actions| && Submitted(ws[i].db.rras.rows, row)
    ensures Submitted(ws[i + 1].db.rras.rows, row)
  {
    AlwaysConsistent(matches, ws, actions, i);
    StepAt(matches, ws, actions, i);
    SubmittedStays(matches, ws[i], actions[i], ws[i + 1], row);
  }

  lemma SubmittedStays(matches: Matcher, w: World, a: Action, w': World, row: RRARow)
    requires Consistent(w.db) && Next(matches, w, a, w') && Submitted(w.db.rras.rows, row)
    ensures Submitted(w'.db.rras.rows, row)
  {
    if a.CutInterlink? {
      UnfinishedFrame(matches, w.db, a.rules, a.at, w'.db);
    }
    var id :| id in w.db.rras.rows && w.db.rras.rows[id].name == row.name
      && w.db.rras.rows[id].lastUpdated == row.lastUpdated;
    assert id in w'.db.rras.rows && w'.db.rras.rows[id] == w.db.rras.rows[id];
  }

  /** Submitting a document stores it, if one of its name and date is not there already. */
  lemma SubmissionStores(db: Db, row: RRARow)
    ensures Submitted(AfterRRA(db, row).rras.rows, row)
  {
    if !Submitted(db.rras.rows, row) {
      assert AfterRRA(db, row).rras.rows[db.rras.next] == row;
    }
  }

  /** A document older than one already held never changes the selection. */
  lemma OlderIgnored(db: Db, row: RRARow, id: nat)
    requires Consistent(db)
    requires id in db.rras.rows && db.rras.rows[id].name == row.name && row.lastUpdated < db.rras.rows[id].lastUpdated
    ensures Latest(AfterRRA(db, row).rras.rows) == Latest(db.rras.rows)
  {
    var a, b := db.rras.rows, AfterRRA(db, row).rras.rows;
    assert forall k :: k in a ==> k in b && b[k] == a[k];
    forall k ensures k in Latest(b) <==> k in Latest(a) {
      if k in Latest(a) && k in b {
        forall j | j in b && b[j].name == b[k].name ensures b[j].lastUpdated <= b[k].lastUpdated {
          assert j in a || b[j] == row;
        }
      }
    }
  }

  /** A document newer than every one held for its service takes that service's place. */
  lemma NewerSelected(db: Db, row: RRARow)
    requires Consistent(db)
    requires forall id :: id in db.rras.rows && db.rras.rows[id].name == row.name ==>
      db.rras.rows[id].lastUpdated < row.lastUpdated
    ensures AfterRRA(db, row).rras.rows == db.rras.rows[db.rras.next := row]
    ensures Latest(AfterRRA(db, row).rras.rows) ==
      (set id | id in Latest(db.rras.rows) && db.rras.rows[id].name != row.name) + {db.rras.next}
  {
    assert !Submitted(db.rras.rows, row);
    assert db.rras.next !in db.rras.rows;
    NewestTakesPlace(db.rras.rows, db.rras.next, row);
  }

  lemma NewestTakesPlace(a: map<nat, RRARow>, n: nat, row: RRARow)
    requires n !in a
    requires forall id :: id in a && a[id].name == row.name ==> a[id].lastUpdated < row.lastUpdated
    ensures Latest(a[n := row]) == (set id | id in Latest(a) && a[id].name != row.name) + {n}
  {
    var b := a[n := row];
    forall k ensures k in Latest(b) <==> k == n || (k in Latest(a) && a[k].name != row.name) {
      if k in a {
        OtherServiceKept(a, n, row, k);
      }
    }
  }

  lemma OtherServiceKept(a: map<nat, RRARow>, n: nat, row: RRARow, k: nat)
    requires n !in a && k in a
    requires forall id :: id in a && a[id].name == row.name ==> a[id].lastUpdated < row.lastUpdated
    ensures k in Latest(a[n := row]) <==> k in Latest(a) && a[k].name != row.name
  {
    var b := a[n := row];
    if a[k].name == row.name {
      assert b[n].name == b[k].name && b[k].lastUpdated < b[n].lastUpdated;
    } else {
      assert forall j :: j in a ==> j in b && b[j] == a[j];
    }
  }

  /* ---------- cache freshness ---------- */

  /** A new cached row is a risk of the state before the step, and carries its time. */
  lemma CacheStep(matches: Matcher, w: World, a: Action, w': World, row: RiskRow)
    requires Consistent(w.db) && Next(matches, w, a, w') && row in w'.db.risks && row !in w.db.risks
    ensures row.timestamp == w.now && RiskOf(w.db, row.rraid, row.risk)
  {
    if a.CutInterlink? {
      UnfinishedFrame(matches, w.db, a.rules, a.at, w'.db);
    }
    assert a.WriteCache?;
    assert row == RiskRow(a.rraid, w.now, a.risk);
  }

  /** Over a run that starts with an empty cache, every cached row was computed on the state
      of the run at the time it carries. */
  lemma {:induction false} CacheOrigin(matches: Matcher, ws: seq<World>, actions: seq<Action>, i: nat, row: RiskRow)
    returns (j: nat)
    requires IsExecution(matches, ws, actions) && ws[0].db.risks == []
    requires i < |ws| && row in ws[i].db.risks
    ensures j <= i && ws[j].now == row.timestamp && RiskOf(ws[j].db, row.rraid, row.risk)
  {
    j := 0;
    if i > 0 {
      AlwaysConsistent(matches, ws, actions, i - 1);
      StepAt(matches, ws, actions, i - 1);
      if row in ws[i - 1].db.risks {
        j := CacheOrigin(matches, ws, actions, i - 1, row);
      } else {
        j := i - 1;
        CacheStep(matches, ws[j], actions[j], ws[i], row);
      }
    }
  }

  /** What a reader with the cache on is given is the risk on some state of the run less
      than four hours old, or on the current one. */
  lemma CacheFresh(matches: Matcher, ws: seq<World>, actions: seq<Action>, rraid: nat, r: Risk) returns (j: nat)
    requires IsExecution(matches, ws, actions) && ws[0].db.risks == []
    requires Given(ws[|actions|].db, true, rraid, ws[|actions|].now, r)
    ensures j < |ws| && RiskOf(ws[j].db, rraid, r)
    ensures ws[j].now > ws[|actions|].now - 14400
  {
    var w := ws[|actions|];
    if FreshInCache(w.db, rraid, w.now, r) {
      var row :| NewestRow(w.db.risks, rraid, row) && row.timestamp > w.now - FOUR_HOURS && row.risk == r;
      j := CacheOrigin(matches, ws, actions, |actions|, row);
    } else {
      j := |actions|;
    }
  }

  /** In a reachable state every cached row is a valid document, so with the cache on a risk
      is given exactly when there is a fresh row or the risk can be computed. */
  lemma GivenWhenReachable(matches: Matcher, ws: seq<World>, actions: seq<Action>, rraid: nat, now: int)
    requires IsExecution(matches, ws, actions) && ws[0].db.risks == []
    ensures var db := ws[|actions|].db;
      && (MustSucceed(db, true, rraid, now) <==> MaySucceed(db, true, rraid, now))
      && (MaySucceed(db, true, rraid, now) <==> HasFresh(db, rraid, now) || Computable(db, rraid))
  {
    var db := ws[|actions|].db;
    forall k | 0 <= k < |db.risks| ensures ValidateRisk(db.risks[k].risk).None? {
      var j := CacheOrigin(matches, ws, actions, |actions|, db.risks[k]);
    }
    ValidRowsDecide(db, true, rraid, now);
  }

  /* ---------- when a risk can be computed ---------- */

  lemma LinkedAreStored(db: Db, rraid: nat, x: Indicator)
    requires x in LinkedIndicators(db, rraid)
    ensures exists i :: i in db.indicators.rows && db.indicators.rows[i].likelihood == x.likelihood
  {
  }

  /** In a reachable state the risk of a stored RRA can be computed exactly when its data
      class is known, its name is not empty and none of its links is NULL; the missing
      attribute and the empty scenario list never happen. */
  lemma ComputableWhenSound(db: Db, rraid: nat)
    requires Sound(db) && rraid in db.rras.rows
    ensures Computable(db, rraid) <==>
      IsDataClass(db.rras.rows[rraid].defData) && db.rras.rows[rraid].name != "" && !HasNullLink(db, rraid)
  {
    RiskTheorems.NormalisedHasRisk(db.rras.rows[rraid]);
    forall x | x in LinkedIndicators(db, rraid) ensures IsLabel(x.likelihood) {
      LinkedAreStored(db, rraid, x);
    }
  }

  /** End to end, from a submitted document: once it is accepted and stored, its risk can be
      computed exactly when the folded data class is known and the trimmed name is not empty,
      as long as no link is NULL. */
  lemma AcceptedDocument(t: TextOps, d: RawDetails, lastModified: int, db: Db, rraid: nat)
    requires GoodDetails(t, d) && Sound(db) && rraid in db.rras.rows && !HasNullLink(db, rraid)
    requires db.rras.rows[rraid] == ToRow(ValidateDetails(t, d).0, lastModified)
    ensures Computable(db, rraid) <==> IsDataClass(DataClass(t, d.default)) && ServiceName(t, d.service) != ""
  {
    ValidateAccepts(t, d, lastModified);
    ComputableWhenSound(db, rraid);
  }

  const LOW_MEASURE := RawMeasure("low", "low")
  const LOW_ATTR := RawRiskAttr(LOW_MEASURE, LOW_MEASURE, LOW_MEASURE)

  /** A concrete case: a document with an unknown data class is accepted, and in no state can
      the risk of its row be computed. */
  lemma AcceptedWithoutRisk()
    ensures var t := TextOps(s => s, s => s);
      var d := RawDetails("a", RawRisk(LOW_ATTR, LOW_ATTR, LOW_ATTR), "top");
      && GoodDetails(t, d)
      && forall db: Db, id :: id in db.rras.rows && db.rras.rows[id] == ToRow(ValidateDetails(t, d).0, 0) ==>
           !Computable(db, id)
  {
    var t := TextOps(s => s, s => s);
    var d := RawDetails("a", RawRisk(LOW_ATTR, LOW_ATTR, LOW_ATTR), "top");
    ValidateAccepts(t, d, 0);
    assert DataClass(t, "top") == "top" && !IsDataClass("top");
  }

  /** After an interlink run the risk of an RRA is out of reach as soon as one service-link
      rule that matches it names an undeclared group. */
  lemma RiskAfterRun(matches: Matcher, pre: Db, rules: seq<Rule>, post: Db, rraid: nat)
    requires IsRun(matches, pre, rules, post) && Sound(post) && rraid in pre.rras.rows
    ensures Computable(post, rraid) <==>
      var row, links := pre.rras.rows[rraid], OfType(rules, AssetGroupLinkService);
      && IsDataClass(row.defData) && row.name != ""
      && !exists i :: 0 <= i < |links| && Dangling(matches, post.groups.rows, links[i], row.name)
  {
    FinalNullLinks(matches, pre, rules, post, rraid);
    ComputableWhenSound(post, rraid);
  }
}
