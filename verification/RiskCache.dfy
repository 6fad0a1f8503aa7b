/** The risk of a stored RRA and its cache. */
module RiskCache {
  import opened Sequences
  import opened Results
  import opened ServiceLib
  import opened Tables
  import opened Database
  import opened RiskCalculation
  import opened Store

  /** The time a cached risk stays usable, in seconds. */
  const FOUR_HOURS := 4 * 60 * 60

  /** r is a risk the uncached computation can return in this state. */
  ghost predicate RiskOf(db: Db, rraid: nat, r: Risk) {
    && IsRRA(db, rraid, r.rra) && !HasNullLink(db, rraid)
    && Calculable(r.rra) && IsRiskOf(r.rra, r)
    && r.rra.row.name != ""
  }

  /** When the uncached computation succeeds, as a property of the state. */
  ghost predicate Computable(db: Db, rraid: nat) {
    && rraid in db.rras.rows && !HasNullLink(db, rraid)
    && HasRisk(db.rras.rows[rraid])
    && IsDataClass(db.rras.rows[rraid].defData)
    && db.rras.rows[rraid].name != ""
    && forall x :: x in LinkedIndicators(db, rraid) ==> IsLabel(x.likelihood)
  }

  lemma CalculableIsComputable(db: Db, rraid: nat, rra: RRA)
    requires IsRRA(db, rraid, rra)
    ensures Calculable(rra) && rra.row.name != "" && !HasNullLink(db, rraid) <==> Computable(db, rraid)
  {
  }

  /** A newest cached row of the RRA. */
  predicate NewestRow(risks: seq<RiskRow>, rraid: nat, row: RiskRow) {
    row in risks && row.rraid == rraid &&
    forall k :: 0 <= k < |risks| && risks[k].rraid == rraid ==> risks[k].timestamp <= row.timestamp
  }

  predicate HasRow(risks: seq<RiskRow>, rraid: nat) {
    exists k :: 0 <= k < |risks| && risks[k].rraid == rraid
  }

  /** ORDER BY timestamp DESC LIMIT 1; among equal times any row may come first. */
  method SelectNewest(risks: seq<RiskRow>, rraid: nat) returns (r: Option<RiskRow>)
    ensures r.None? <==> !HasRow(risks, rraid)
    ensures r.Some? ==> NewestRow(risks, rraid, r.value)
  {
    r := None;
    for i := 0 to |risks|
      invariant r.None? <==> !HasRow(risks[..i], rraid)
      invariant r.Some? ==> NewestRow(risks[..i], rraid, r.value)
    {
      var row := risks[i];
      assert risks[..i + 1] == risks[..i] + [row];
      assert risks[..i + 1][i] == row;
      ghost var had := HasRow(risks[..i], rraid);
      assert had ==> HasRow(risks[..i + 1], rraid) by {
        if had {
          var k :| 0 <= k < i && risks[..i][k].rraid == rraid;
          assert risks[..i + 1][k].rraid == rraid;
        }
      }
      if row.rraid == rraid {
        if r.None? || row.timestamp > r.value.timestamp {
          r := Some(row);
        } else if row.timestamp == r.value.timestamp {
          if * {
            r := Some(row);
          }
        }
      }
    }
    assert risks[..|risks|] == risks;
  }

  /** A cached risk of the RRA that is young enough at the given time. */
  ghost predicate FreshInCache(db: Db, rraid: nat, now: int, r: Risk) {
    exists row :: NewestRow(db.risks, rraid, row) && row.timestamp > now - FOUR_HOURS && row.risk == r
  }

  /** What a reader may be given. */
  ghost predicate Given(db: Db, useCache: bool, rraid: nat, now: int, r: Risk) {
    RiskOf(db, rraid, r) || (useCache && FreshInCache(db, rraid, now, r))
  }

  /** The RRA has a cached row young enough at the given time. */
  predicate HasFresh(db: Db, rraid: nat, now: int) {
    exists k :: 0 <= k < |db.risks| && db.risks[k].rraid == rraid && db.risks[k].timestamp > now - FOUR_HOURS
  }

  /** Some, or every, newest row of the RRA is a valid document. */
  ghost predicate SomeValid(risks: seq<RiskRow>, rraid: nat) {
    exists row :: NewestRow(risks, rraid, row) && ValidateRisk(row.risk).None?
  }

  ghost predicate AllValid(risks: seq<RiskRow>, rraid: nat) {
    forall row :: NewestRow(risks, rraid, row) ==> ValidateRisk(row.risk).None?
  }

  /** When a reader can be given a risk: a fresh row hides the computation, and must then
      itself be valid. Rows of the same time need not agree on that. */
  ghost predicate MaySucceed(db: Db, useCache: bool, rraid: nat, now: int) {
    if useCache && HasFresh(db, rraid, now) then SomeValid(db.risks, rraid) else Computable(db, rraid)
  }

  ghost predicate MustSucceed(db: Db, useCache: bool, rraid: nat, now: int) {
    if useCache && HasFresh(db, rraid, now) then AllValid(db.risks, rraid) else Computable(db, rraid)
  }

  lemma {:induction false} NewestRowExists(risks: seq<RiskRow>, rraid: nat) returns (row: RiskRow)
    requires HasRow(risks, rraid)
    ensures NewestRow(risks, rraid, row)
  {
    var last := risks[|risks| - 1];
    if HasRow(risks[..|risks| - 1], rraid) {
      row := NewestRowExists(risks[..|risks| - 1], rraid);
      assert risks[..|risks| - 1] + [last] == risks;
      if last.rraid == rraid && last.timestamp > row.timestamp {
        row := last;
      }
    } else {
      assert forall k :: 0 <= k < |risks| - 1 ==> risks[..|risks| - 1][k] == risks[k];
      row := last;
    }
  }

  /** With valid rows only, the two conditions are one. */
  lemma ValidRowsDecide(db: Db, useCache: bool, rraid: nat, now: int)
    requires forall k :: 0 <= k < |db.risks| ==> ValidateRisk(db.risks[k].risk).None?
    ensures MustSucceed(db, useCache, rraid, now) <==> MaySucceed(db, useCache, rraid, now)
    ensures MaySucceed(db, useCache, rraid, now) <==> (useCache && HasFresh(db, rraid, now)) || Computable(db, rraid)
  {
    if HasFresh(db, rraid, now) {
      var row := NewestRowExists(db.risks, rraid);
    }
  }

  /** The look into the cache; a hit is an answer, be it a valid document or an error. */
  method ReadCache(op: OpContext, rraid: nat, now: int) returns (ok: bool, hit: Option<Result<Risk>>)
    modifies op`step
    ensures op.step == old(op.step) + 1 && (ok <==> !op.fails(old(op.step)))
    ensures ok ==> (hit.Some? <==> HasFresh(op.db, rraid, now))
    ensures ok && hit.Some? && hit.value.Ok? ==>
      FreshInCache(op.db, rraid, now, hit.value.value) && hit.value.value.rra.row.name != ""
    ensures ok && hit.Some? ==> if hit.value.Ok? then SomeValid(op.db.risks, rraid) else !AllValid(op.db.risks, rraid)
  {
    hit := None;
    ok := op.Query();
    if !ok {
      return;
    }
    var newest := SelectNewest(op.db.risks, rraid);
    if newest.Some? {
      var cutoff := now - FOUR_HOURS;
      var row := newest.value;
      if row.timestamp > cutoff {
        var e := ValidateRisk(row.risk);
        hit := Some(if e.Some? then Err(e.value) else Ok(row.risk));
      }
    }
  }

  /** The risk computed from the tables. */
  method ComputeRisk(op: OpContext, rraid: nat) returns (r: Result<Risk>)
    requires op.Valid()
    modifies op`step
    ensures old(op.step) <= op.step
    ensures r.Ok? ==> RiskOf(op.db, rraid, r.value)
    ensures r.Ok? <==> op.Clean(old(op.step), op.step) && Computable(op.db, rraid)
  {
    var rra := GetRRA(op, rraid);
    if rra.Err? {
      return Err(rra.error);
    }
    CalculableIsComputable(op.db, rraid, rra.value);
    var doc := new RiskDoc(rra.value);
    var err := doc.Calculate();
    if err.Some? {
      return Err(err.value);
    }
    var risk := doc.Value();
    err := ValidateRisk(risk);
    return if err.Some? then Err(err.value) else Ok(risk);
  }

  /** The risk of an RRA, from the cache if that is wanted and fresh. */
  method RiskForRRA(op: OpContext, useCache: bool, rraid: nat, now: int) returns (r: Result<Risk>)
    requires op.Valid()
    modifies op`step
    ensures old(op.step) <= op.step
    ensures r.Ok? ==> Given(op.db, useCache, rraid, now, r.value) && r.value.rra.row.name != ""
    ensures r.Ok? ==> op.Clean(old(op.step), op.step) && MaySucceed(op.db, useCache, rraid, now)
    ensures op.Clean(old(op.step), op.step) && MustSucceed(op.db, useCache, rraid, now) ==> r.Ok?
  {
    if useCache {
      var ok, hit := ReadCache(op, rraid, now);
      if !ok {
        return Err(Error.Statement);
      }
      if hit.Some? {
        return hit.value;
      }
    }
    ghost var mid := op.step;
    r := ComputeRisk(op, rraid);
    op.CleanJoin(old(op.step), mid, op.step);
  }

  lemma InsertRiskKeeps(db: Db, row: RiskRow)
    requires Consistent(db) && row.rraid in db.rras.rows
    ensures Consistent(db.(risks := db.risks + [row]))
  {
  }

  method StoreRisk(op: OpContext, row: RiskRow) returns (ok: bool)
    requires op.Valid() && row.rraid in op.db.rras.rows
    modifies op`db, op`step, op`seen
    ensures op.Valid() && op.step == old(op.step) + 1 && (ok <==> !op.fails(old(op.step)))
    ensures op.db == if ok then old(op.db).(risks := old(op.db).risks + [row]) else old(op.db)
  {
    InsertRiskKeeps(op.db, row);
    ok := op.Exec(InsertRisk(row));
  }

  ghost predicate EachMay(db: Db, ids: seq<nat>, now: int) {
    forall id :: id in ids ==> MaySucceed(db, true, id, now)
  }

  ghost predicate EachMust(db: Db, ids: seq<nat>, now: int) {
    forall id :: id in ids ==> MustSucceed(db, true, id, now)
  }

  /** The risks of the latest RRA of every service; one that fails fails the whole answer. */
  method ServiceRisks(op: OpContext, now: int) returns (ok: bool, ids: seq<nat>, risks: seq<Risk>)
    requires op.Valid()
    modifies op`step
    ensures old(op.step) <= op.step
    ensures ok ==> forall id :: id in ids <==> id in Latest(op.db.rras.rows)
    ensures ok ==> forall i, j :: 0 <= i < j < |ids| ==> ids[i] != ids[j]
    ensures ok ==> Answers(op.db, ids, now, risks)
    ensures ok ==> op.Clean(old(op.step), op.step) && EachMay(op.db, ids, now)
    ensures !ok && op.Clean(old(op.step), op.step) ==>
      (forall id :: id in ids ==> id in Latest(op.db.rras.rows)) && !EachMust(op.db, ids, now)
  {
    risks := [];
    ok, ids := ServiceRRAs(op);
    if ok {
      ok, risks := AnswerAll(op, ids, now);
    }
  }

  method AnswerAll(op: OpContext, ids: seq<nat>, now: int) returns (ok: bool, risks: seq<Risk>)
    requires op.Valid()
    modifies op`step
    ensures old(op.step) <= op.step
    ensures ok ==> Answers(op.db, ids, now, risks)
    ensures ok ==> op.Clean(old(op.step), op.step) && EachMay(op.db, ids, now)
    ensures !ok && op.Clean(old(op.step), op.step) ==> !EachMust(op.db, ids, now)
  {
    risks := [];
    for n := 0 to |ids|
      invariant old(op.step) <= op.step && op.Clean(old(op.step), op.step)
      invariant EachMay(op.db, ids[..n], now)
      invariant Answers(op.db, ids[..n], now, risks)
    {
      assert ids[n] in ids;
      assert ids[..n + 1] == ids[..n] + [ids[n]];
      var r := RiskForRRA(op, true, ids[n], now);
      if r.Err? {
        return false, risks;
      }
      AnswersMore(op.db, ids, n, now, risks, r.value);
      risks := risks + [r.value];
    }
    assert ids[..|ids|] == ids;
    ok := true;
  }

  /** One risk for each id, computed on this state or fresh in its cache. */
  ghost predicate Answers(db: Db, ids: seq<nat>, now: int, risks: seq<Risk>) {
    |risks| == |ids| && forall i :: 0 <= i < |ids| ==> Given(db, true, ids[i], now, risks[i])
  }

  lemma AnswersMore(db: Db, ids: seq<nat>, n: nat, now: int, risks: seq<Risk>, r: Risk)
    requires n < |ids| && Answers(db, ids[..n], now, risks) && Given(db, true, ids[n], now, r)
    ensures Answers(db, ids[..n + 1], now, risks + [r])
  {
    var more, front := risks + [r], ids[..n + 1];
    forall i | 0 <= i < n + 1 ensures Given(db, true, front[i], now, more[i]) {
      assert i < n ==> front[i] == ids[..n][i] && more[i] == risks[i];
    }
  }

  /** Compute the risk afresh and store it with the current time. */
  method CacheRisk(op: OpContext, rraid: nat, now: int) returns (ok: bool, row: Option<RiskRow>)
    requires op.Valid()
    modifies op`db, op`step, op`seen
    ensures op.Valid() && old(op.step) <= op.step
    ensures ok <==> op.Clean(old(op.step), op.step) && Computable(old(op.db), rraid)
    ensures ok ==>
      && row.Some? && row.value == RiskRow(rraid, now, row.value.risk)
      && RiskOf(old(op.db), rraid, row.value.risk)
      && op.db == old(op.db).(risks := old(op.db).risks + [row.value])
    ensures !ok ==> op.db == old(op.db)
  {
    var r := RiskForRRA(op, false, rraid, now);
    assert MaySucceed(op.db, false, rraid, now) <==> MustSucceed(op.db, false, rraid, now);
    if r.Err? {
      return false, None;
    }
    row := Some(RiskRow(rraid, now, r.value));
    op.CleanNext(old(op.step), op.step);
    ok := StoreRisk(op, row.value);
  }

  /* ---------- the risk of a state does not depend on its cache ---------- */

  lemma LinkedFrame(db: Db, risks: seq<RiskRow>, rraid: nat)
    ensures LinkedIndicators(db.(risks := risks), rraid) == LinkedIndicators(db, rraid)
  {
    var e := db.(risks := risks);
    assert LinkedGroups(e, e.links, rraid) == LinkedGroups(db, db.links, rraid);
    forall g ensures GroupIndicators(e, g) == GroupIndicators(db, g) {
    }
  }

  lemma RiskFrame(db: Db, risks: seq<RiskRow>, rraid: nat, r: Risk)
    ensures RiskOf(db.(risks := risks), rraid, r) <==> RiskOf(db, rraid, r)
    ensures Computable(db.(risks := risks), rraid) <==> Computable(db, rraid)
  {
    LinkedFrame(db, risks, rraid);
  }

  /* ---------- the sweep ---------- */

  /** The RRA has no cached row after the cutoff. */
  predicate Stale(db: Db, rraid: nat, cutoff: int) {
    rraid in db.rras.rows &&
    forall k :: 0 <= k < |db.risks| && db.risks[k].rraid == rraid ==> db.risks[k].timestamp <= cutoff
  }

  ghost predicate NothingStale(db: Db, cutoff: int) {
    forall id :: !Stale(db, id, cutoff)
  }

  ghost predicate SameStale(a: Db, b: Db, cutoff: int) {
    forall id :: Stale(a, id, cutoff) <==> Stale(b, id, cutoff)
  }

  /** The rows a sweep adds: each is a risk of the state it started in, dated within it, and
      the dates are in order. */
  ghost predicate Swept(db: Db, added: seq<RiskRow>, start: int, end: int) {
    && (forall k {:trigger IsRefresh(db, added, k)} :: 0 <= k < |added| ==> IsRefresh(db, added, k))
    && (forall k :: 0 <= k < |added| ==> start <= added[k].timestamp <= end)
    && forall j, k :: 0 <= j < k < |added| ==> added[j].timestamp <= added[k].timestamp
  }

  ghost predicate IsRefresh(db: Db, added: seq<RiskRow>, k: nat)
    requires k < |added|
  {
    RiskOf(db, added[k].rraid, added[k].risk)
  }

  /** The rows are of RRAs that were stale, one row for each. */
  ghost predicate OnlyStale(db: Db, cutoff: int, added: seq<RiskRow>) {
    && (forall k :: 0 <= k < |added| ==> Stale(db, added[k].rraid, cutoff))
    && forall j, k :: 0 <= j < k < |added| ==> added[j].rraid != added[k].rraid
  }

  predicate RowsOf(ids: seq<nat>, added: seq<RiskRow>) {
    forall k :: 0 <= k < |added| ==> added[k].rraid in ids
  }

  /** Refresh one RRA during a sweep that started in db0. */
  method RefreshOne(op: OpContext, ghost db0: Db, rraid: nat, now: int) returns (ok: bool, row: Option<RiskRow>)
    requires op.Valid() && op.db == db0.(risks := op.db.risks)
    modifies op`db, op`step, op`seen
    ensures op.Valid() && old(op.step) <= op.step
    ensures ok <==> op.Clean(old(op.step), op.step) && Computable(db0, rraid)
    ensures ok ==>
      && row.Some? && Swept(db0, [row.value], now, now) && row.value.rraid == rraid
      && op.db == db0.(risks := old(op.db).risks + [row.value])
    ensures !ok ==> op.db == old(op.db)
  {
    ghost var before := op.db.risks;
    RiskFrame(db0, before, rraid, Risk(RRA(NO_ROW, []), ZERO_ATTRIBUTE, ZERO_SUMMARY, []));
    ok, row := CacheRisk(op, rraid, now);
    if ok {
      RiskFrame(db0, before, rraid, row.value.risk);
    }
  }

  /** If the RRA was stale, it could be computed and has been refreshed. */
  ghost predicate Handled(db: Db, rraid: nat, cutoff: int, added: seq<RiskRow>) {
    Stale(db, rraid, cutoff) ==> Computable(db, rraid) && exists j :: 0 <= j < |added| && added[j].rraid == rraid
  }

  ghost predicate AllHandled(db: Db, ids: seq<nat>, cutoff: int, added: seq<RiskRow>) {
    forall k :: 0 <= k < |ids| ==> Handled(db, ids[k], cutoff, added)
  }

  ghost predicate AllComputable(db: Db, cutoff: int) {
    forall id :: Stale(db, id, cutoff) ==> Computable(db, id)
  }

  /** One turn of the sweep's loop; `risks` is the cache as it was when the sweep started. */
  method SweepOne(op: OpContext, ghost db0: Db, rraid: nat, cutoff: int, risks: seq<RiskRow>, now: int)
    returns (ok: bool, end: int, rows: seq<RiskRow>)
    requires op.Valid() && op.db == db0.(risks := op.db.risks)
    requires risks == db0.risks && rraid in db0.rras.rows
    modifies op`db, op`step, op`seen
    ensures op.Valid() && old(op.step) <= op.step && now <= end
    ensures ok <==> op.Clean(old(op.step), op.step) && (Stale(db0, rraid, cutoff) ==> Computable(db0, rraid))
    ensures op.db == db0.(risks := old(op.db).risks + rows)
    ensures Swept(db0, rows, end, end) && OnlyStale(db0, cutoff, rows) && RowsOf([rraid], rows)
    ensures ok && Stale(db0, rraid, cutoff) ==> rows != []
  {
    end, rows := now, [];
    Appended(op.db.risks, [], []);
    var young := IsFresh(risks, rraid, cutoff);
    assert young <==> !Stale(db0, rraid, cutoff);
    if young {
      return true, end, rows;
    }
    var elapsed :| elapsed >= 0;
    end := end + elapsed;
    var row: Option<RiskRow>;
    ok, row := RefreshOne(op, db0, rraid, end);
    if ok {
      rows := [row.value];
    }
  }

  /** The newest cached row of the RRA is after the cutoff. */
  method IsFresh(risks: seq<RiskRow>, rraid: nat, cutoff: int) returns (young: bool)
    ensures young <==> exists k :: 0 <= k < |risks| && risks[k].rraid == rraid && risks[k].timestamp > cutoff
  {
    var newest := SelectNewest(risks, rraid);
    young := newest.Some? && newest.value.timestamp > cutoff;
  }

  /** The sweep's loop. */
  method SweepAll(op: OpContext, ghost db0: Db, ids: seq<nat>, cutoff: int, start: int)
    returns (ok: bool, end: int, added: seq<RiskRow>)
    requires op.Valid() && op.db == db0 && forall id :: id in ids ==> id in db0.rras.rows
    requires forall i, j :: 0 <= i < j < |ids| ==> ids[i] != ids[j]
    modifies op`db, op`step, op`seen
    ensures op.Valid() && old(op.step) <= op.step && start <= end
    ensures op.db == db0.(risks := db0.risks + added)
    ensures Swept(db0, added, start, end) && OnlyStale(db0, cutoff, added)
    ensures ok ==> op.Clean(old(op.step), op.step) && AllHandled(db0, ids, cutoff, added)
    ensures !ok && op.Clean(old(op.step), op.step) ==> !AllComputable(db0, cutoff)
  {
    end, added := start, [];
    Appended(db0.risks, [], []);
    var risks := op.db.risks;
    for n := 0 to |ids|
      invariant op.Valid() && old(op.step) <= op.step && op.Clean(old(op.step), op.step)
      invariant start <= end && op.db == db0.(risks := db0.risks + added)
      invariant SweptTo(db0, ids, n, cutoff, added, start, end)
    {
      assert ids[n] in ids;
      var rows: seq<RiskRow>;
      ghost var now, before, mid := end, added, op.step;
      ok, end, rows := SweepOne(op, db0, ids[n], cutoff, risks, end);
      op.CleanJoin(old(op.step), mid, op.step);
      added := added + rows;
      SweepTurn(db0, ids, n, cutoff, before, rows, start, now, end);
      if !ok {
        return;
      }
    }
    assert ids[..|ids|] == ids;
    ok := true;
  }

  /** One pass over all RRAs, refreshing the stale ones, while the clock may move on. One
      stale RRA that cannot be computed ends it. After a success an RRA is stale exactly when
      it was refreshed and its new row is not after the cutoff. A positive interval excludes
      that; with any other, and a clock that stands still, the sweep changes nothing in this
      respect: nothing is stale afterwards exactly when nothing was before. */
  method Sweep(op: OpContext, every: int, start: int) returns (ok: bool, end: int, added: seq<RiskRow>)
    requires op.Valid()
    modifies op`db, op`step, op`seen
    ensures op.Valid() && old(op.step) <= op.step && start <= end
    ensures op.db == old(op.db).(risks := old(op.db).risks + added)
    ensures Swept(old(op.db), added, start, end) && OnlyStale(old(op.db), start - every, added)
    ensures ok <==> op.Clean(old(op.step), op.step) && AllComputable(old(op.db), start - every)
    ensures ok ==> StaleAre(op.db, start - every, added)
    ensures ok && every > 0 ==> NothingStale(op.db, start - every)
    ensures every <= 0 && end == start ==> SameStale(old(op.db), op.db, start - every)
  {
    ghost var db0 := op.db;
    end, added := start, [];
    Appended(db0.risks, [], []);
    ok := op.Query();
    if !ok {
      return;
    }
    var ids := Scan(op.db.rras.rows);
    ok, end, added := SweepIds(op, db0, ids, start - every, start);
  }

  /** The sweep over the listed RRAs. */
  method SweepIds(op: OpContext, ghost db0: Db, ids: seq<nat>, cutoff: int, start: int)
    returns (ok: bool, end: int, added: seq<RiskRow>)
    requires op.Valid() && op.db == db0 && forall id :: id in ids <==> id in db0.rras.rows
    requires forall i, j :: 0 <= i < j < |ids| ==> ids[i] != ids[j]
    modifies op`db, op`step, op`seen
    ensures op.Valid() && old(op.step) <= op.step && start <= end
    ensures op.db == db0.(risks := db0.risks + added)
    ensures Swept(db0, added, start, end) && OnlyStale(db0, cutoff, added)
    ensures ok <==> op.Clean(old(op.step), op.step) && AllComputable(db0, cutoff)
    ensures ok ==> StaleAre(op.db, cutoff, added)
    ensures ok && start > cutoff ==> NothingStale(op.db, cutoff)
    ensures end <= cutoff ==> SameStale(db0, op.db, cutoff)
  {
    ok, end, added := SweepAll(op, db0, ids, cutoff, start);
    SweepOutcome(db0, ids, cutoff, added, start, end, ok);
  }

  lemma SweepOutcome(db: Db, ids: seq<nat>, cutoff: int, added: seq<RiskRow>, start: int, end: int, ok: bool)
    requires Swept(db, added, start, end) && OnlyStale(db, cutoff, added)
    requires forall id :: id in ids <==> id in db.rras.rows
    requires ok ==> AllHandled(db, ids, cutoff, added)
    ensures var e := db.(risks := db.risks + added);
      && (ok ==> AllComputable(db, cutoff) && StaleAre(e, cutoff, added))
      && (ok && start > cutoff ==> NothingStale(e, cutoff))
      && (end <= cutoff ==> SameStale(db, e, cutoff))
  {
    StillStale(db, cutoff, added, end);
    if ok {
      SweptAll(db, ids, cutoff, added);
      StaleAfter(db, cutoff, added, start);
    }
  }

  /** The stale RRAs are those of these rows that are not after the cutoff. */
  ghost predicate StaleAre(db: Db, cutoff: int, added: seq<RiskRow>) {
    forall id :: Stale(db, id, cutoff) <==>
      exists k :: 0 <= k < |added| && added[k].rraid == id && added[k].timestamp <= cutoff
  }

  /** The state of the sweep after its first n RRAs. */
  ghost predicate SweptTo(db: Db, ids: seq<nat>, n: nat, cutoff: int, added: seq<RiskRow>, start: int, now: int)
    requires n <= |ids|
  {
    && Swept(db, added, start, now) && OnlyStale(db, cutoff, added)
    && RowsOf(ids[..n], added) && AllHandled(db, ids[..n], cutoff, added)
  }

  /** One more turn of the loop. */
  lemma SweepTurn(db: Db, ids: seq<nat>, n: nat, cutoff: int, added: seq<RiskRow>, rows: seq<RiskRow>,
                  start: int, now: int, end: int)
    requires n < |ids| && forall i, j :: 0 <= i < j < |ids| ==> ids[i] != ids[j]
    requires SweptTo(db, ids, n, cutoff, added, start, now) && start <= now <= end
    requires Swept(db, rows, end, end) && OnlyStale(db, cutoff, rows) && RowsOf([ids[n]], rows)
    ensures db.risks + added + rows == db.risks + (added + rows)
    ensures Swept(db, added + rows, start, end) && OnlyStale(db, cutoff, added + rows)
    ensures (Stale(db, ids[n], cutoff) ==> Computable(db, ids[n]) && rows != []) ==>
      SweptTo(db, ids, n + 1, cutoff, added + rows, start, end)
  {
    Appended(db.risks, added, rows);
    SweptMore(db, added, rows, start, now, end);
    OnlyStaleMore(db, ids, n, cutoff, added, rows);
    if Stale(db, ids[n], cutoff) ==> Computable(db, ids[n]) && rows != [] {
      HandledMore(db, ids, n, cutoff, added, rows);
    }
  }

  lemma SweptMore(db: Db, added: seq<RiskRow>, rows: seq<RiskRow>, start: int, now: int, end: int)
    requires Swept(db, added, start, now) && Swept(db, rows, end, end) && start <= now <= end
    ensures Swept(db, added + rows, start, end)
  {
    var more := added + rows;
    forall k | 0 <= k < |more| ensures IsRefresh(db, more, k) {
      assert if k < |added| then IsRefresh(db, added, k) else IsRefresh(db, rows, k - |added|);
    }
  }

  lemma OnlyStaleMore(db: Db, ids: seq<nat>, n: nat, cutoff: int, added: seq<RiskRow>, rows: seq<RiskRow>)
    requires n < |ids| && forall i, j :: 0 <= i < j < |ids| ==> ids[i] != ids[j]
    requires OnlyStale(db, cutoff, added) && RowsOf(ids[..n], added)
    requires OnlyStale(db, cutoff, rows) && RowsOf([ids[n]], rows)
    ensures OnlyStale(db, cutoff, added + rows) && RowsOf(ids[..n + 1], added + rows)
  {
    var more := added + rows;
    assert ids[..n + 1] == ids[..n] + [ids[n]];
    assert ids[n] !in ids[..n];
    forall j, k | 0 <= j < k < |more| ensures more[j].rraid != more[k].rraid {
      assert j < |added| ==> more[j].rraid in ids[..n];
      assert k >= |added| ==> more[k].rraid in [ids[n]];
    }
  }

  lemma HandledMore(db: Db, ids: seq<nat>, n: nat, cutoff: int, added: seq<RiskRow>, rows: seq<RiskRow>)
    requires n < |ids| && AllHandled(db, ids[..n], cutoff, added)
    requires Stale(db, ids[n], cutoff) ==> Computable(db, ids[n]) && rows != [] && rows[0].rraid == ids[n]
    ensures AllHandled(db, ids[..n + 1], cutoff, added + rows)
  {
    var more, front := added + rows, ids[..n + 1];
    forall k | 0 <= k < n + 1 ensures Handled(db, front[k], cutoff, more) {
      if Stale(db, ids[k], cutoff) {
        if k < n {
          assert Handled(db, ids[..n][k], cutoff, added);
          var j :| 0 <= j < |added| && added[j].rraid == ids[k];
          assert more[j].rraid == ids[k];
        } else {
          assert more[|added|].rraid == ids[k];
        }
      }
    }
  }

  lemma SweptAll(db: Db, ids: seq<nat>, cutoff: int, added: seq<RiskRow>)
    requires forall id :: id in ids <==> id in db.rras.rows
    requires AllHandled(db, ids, cutoff, added)
    ensures AllComputable(db, cutoff)
    ensures forall id :: Stale(db, id, cutoff) ==> HasRow(added, id)
  {
  }

  /** A stale RRA with a later row is stale no more, and the others were fresh already. */
  lemma StaleAfter(db: Db, cutoff: int, added: seq<RiskRow>, start: int)
    requires OnlyStale(db, cutoff, added)
    requires forall id :: Stale(db, id, cutoff) ==> HasRow(added, id)
    ensures StaleAre(db.(risks := db.risks + added), cutoff, added)
    ensures start > cutoff && (forall k :: 0 <= k < |added| ==> added[k].timestamp >= start) ==>
      NothingStale(db.(risks := db.risks + added), cutoff)
  {
    var e := db.(risks := db.risks + added);
    forall id
      ensures Stale(e, id, cutoff) <==>
        exists k :: 0 <= k < |added| && added[k].rraid == id && added[k].timestamp <= cutoff
    {
      StaleNow(db, added, cutoff, id);
      if Stale(db, id, cutoff) {
        var j :| 0 <= j < |added| && added[j].rraid == id;
      }
    }
  }

  /** Staleness after adding rows. */
  lemma StaleNow(db: Db, added: seq<RiskRow>, cutoff: int, id: nat)
    ensures Stale(db.(risks := db.risks + added), id, cutoff) <==>
      Stale(db, id, cutoff) && forall k :: 0 <= k < |added| && added[k].rraid == id ==> added[k].timestamp <= cutoff
  {
    var e := db.(risks := db.risks + added);
    if Stale(e, id, cutoff) {
      forall k | 0 <= k < |added| && added[k].rraid == id ensures added[k].timestamp <= cutoff {
        assert e.risks[|db.risks| + k] == added[k];
      }
      forall k | 0 <= k < |db.risks| && db.risks[k].rraid == id ensures db.risks[k].timestamp <= cutoff {
        assert e.risks[k] == db.risks[k];
      }
    }
  }

  /** Rows dated at the cutoff or before it change nothing. */
  lemma StillStale(db: Db, cutoff: int, added: seq<RiskRow>, end: int)
    requires forall k :: 0 <= k < |added| ==> added[k].timestamp <= end
    ensures end <= cutoff ==> SameStale(db, db.(risks := db.risks + added), cutoff)
  {
    if end <= cutoff {
      forall id ensures Stale(db, id, cutoff) <==> Stale(db.(risks := db.risks + added), id, cutoff) {
        StaleNow(db, added, cutoff, id);
      }
    }
  }

  /** The labels of a small RRA. */
  const SMALL_RRA := NO_ROW.(name := "a", defData := "public", availRepImpact := "low", availRepProb := "low")

  lemma SmallHasRisk()
    ensures HasRisk(SMALL_RRA)
  {
    assert IsLabel(LabelPairs(SMALL_RRA)[0].0);
  }

  /** One RRA, without links and never cached. */
  const ONE_RRA := Db(Table(map[], 0), Table(map[], 0), Table(map[], 0),
                      Table(map[0 := SMALL_RRA], 1), Table(map[], 0), [], [])

  /** A concrete case: whatever risk is stored for it now, a sweep every 0 seconds finds it
      stale before and after, and one every second finds it fresh. */
  lemma ZeroInterval(now: int, risk: Risk)
    ensures Computable(ONE_RRA, 0) && Stale(ONE_RRA, 0, now - 0)
    ensures var after := ONE_RRA.(risks := [RiskRow(0, now, risk)]);
      Stale(after, 0, now - 0) && !Stale(after, 0, now - 1)
  {
    SmallHasRisk();
    UnlinkedComputable(ONE_RRA, 0);
    var after := ONE_RRA.(risks := [RiskRow(0, now, risk)]);
    assert after.risks[0].timestamp == now;
  }

  lemma UnlinkedComputable(db: Db, rraid: nat)
    requires db.links == [] && rraid in db.rras.rows
    ensures Computable(db, rraid) <==>
      var row := db.rras.rows[rraid];
      HasRisk(row) && IsDataClass(row.defData) && row.name != ""
  {
  }
}
