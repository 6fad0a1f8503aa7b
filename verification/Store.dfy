/** The operations around the risk calculation: submissions, document assembly, the risk
    cache. */
module Store {
  import opened Sequences
  import opened Results
  import opened ServiceLib
  import opened Tables
  import opened Database
  import opened RiskCalculation

  datatype Reply = Accepted | Rejected | ServerError

  /* ---------- indicators of an asset ---------- */

  /** j is a newest indicator of its source on the asset. */
  predicate NewestOn(rows: map<nat, IndicatorRow>, aid: nat, j: nat) {
    && j in rows && rows[j].assetid == aid
    && forall k :: k in rows && rows[k].assetid == aid && rows[k].source == rows[j].source ==>
         rows[k].timestamp <= rows[j].timestamp
  }

  /** Indicator i has source and time of a newest indicator on the asset. */
  predicate MatchesNewest(rows: map<nat, IndicatorRow>, aid: nat, i: nat) {
    i in rows &&
    exists j ::
      j in rows && NewestOn(rows, aid, j) && rows[j].source == rows[i].source && rows[j].timestamp == rows[i].timestamp
  }

  /** The ids the query for an asset's latest indicators returns. The outer query joins on
      source and time only, so an indicator of another asset can be among them. */
  function LatestIds(rows: map<nat, IndicatorRow>, aid: nat): set<nat> {
    set i | i in rows && MatchesNewest(rows, aid, i)
  }

  function ToIndicator(row: IndicatorRow): Indicator {
    Indicator(row.source, row.timestamp, row.likelihood)
  }

  function LatestIndicators(rows: map<nat, IndicatorRow>, aid: nat): set<Indicator> {
    set i | i in LatestIds(rows, aid) :: ToIndicator(rows[i])
  }

  lemma ReadAll(rows: map<nat, IndicatorRow>, ids: seq<nat>, aid: nat, ret: seq<Indicator>)
    requires |ret| == |ids|
    requires forall id :: id in ids <==> id in LatestIds(rows, aid)
    requires forall n :: 0 <= n < |ids| ==> ids[n] in rows && ret[n] == ToIndicator(rows[ids[n]])
    ensures Seen(ret) == LatestIndicators(rows, aid)
  {
  }

  method AssetGetIndicators(op: OpContext, aid: nat) returns (ok: bool, ret: seq<Indicator>)
    modifies op`step
    ensures op.step == old(op.step) + 1 && (ok <==> !op.fails(old(op.step)))
    ensures ok ==> Seen(ret) == LatestIndicators(op.db.indicators.rows, aid)
    ensures ok ==> |ret| == |LatestIds(op.db.indicators.rows, aid)|
  {
    ret := [];
    ok := op.Query();
    if !ok {
      return;
    }
    var rows := op.db.indicators.rows;
    var ids := Scan(map i | i in LatestIds(rows, aid) :: 0);
    for n := 0 to |ids|
      invariant |ret| == n
      invariant forall k :: 0 <= k < n ==> ids[k] in rows && ret[k] == ToIndicator(rows[ids[k]])
    {
      assert ids[n] in ids;
      ret := ret + [ToIndicator(rows[ids[n]])];
    }
    DistinctLength(ids, LatestIds(rows, aid));
    ReadAll(rows, ids, aid, ret);
  }

  method GetAsset(op: OpContext, aid: nat) returns (ok: bool, ret: Asset)
    modifies op`step
    ensures old(op.step) <= op.step && (ok <==> op.Clean(old(op.step), op.step))
    ensures ok ==> ret.id == aid && Seen(ret.indicators) == LatestIndicators(op.db.indicators.rows, aid)
  {
    ret := Asset(aid, []);
    ok := op.Query();
    if !ok {
      return;
    }
    var indicators: seq<Indicator>;
    ok, indicators := AssetGetIndicators(op, aid);
    ret := Asset(aid, indicators);
  }

  /* ---------- indicator submission ---------- */

  function FindAsset(assets: map<nat, AssetRow>, assettype: string, name: string, zone: string): (r: Option<nat>)
    requires AssetKey(assets)
    ensures forall id :: r == Some(id) <==>
      id in assets && assets[id].assettype == assettype && assets[id].name == name && assets[id].zone == zone
  {
    if exists id :: id in assets && assets[id].assettype == assettype && assets[id].name == name
         && assets[id].zone == zone then
      var id :| id in assets && assets[id].assettype == assettype && assets[id].name == name
        && assets[id].zone == zone;
      Some(id)
    else None
  }

  /** An indicator accepted by validation. */
  datatype Submission = Submission(assettype: string, name: string, zone: string, timestamp: int,
                                   source: string, likelihood: string)

  predicate GoodSubmission(s: Submission) {
    s.assettype != "" && s.name != "" && s.source != "" && s.timestamp != 0 && IsLabel(s.likelihood)
  }

  /** The asset the submission is about, created if it is new. */
  function WithAsset(db: Db, s: Submission): Db
    requires Consistent(db)
  {
    if FindAsset(db.assets.rows, s.assettype, s.name, s.zone).Some? then db
    else db.(assets := Insert(db.assets, AssetRow(s.assettype, s.name, s.zone, None, None, None, s.timestamp)))
  }

  function AssetId(db: Db, s: Submission): nat
    requires Consistent(db)
  {
    match FindAsset(db.assets.rows, s.assettype, s.name, s.zone)
    case Some(id) => id
    case None => db.assets.next
  }

  function AfterIndicator(db: Db, s: Submission): Db
    requires Consistent(db)
  {
    var d := WithAsset(db, s);
    d.(indicators := Insert(d.indicators, IndicatorRow(s.timestamp, s.source, s.likelihood, AssetId(db, s))))
  }

  /** The asset already has an indicator of this source and time. */
  predicate Duplicate(db: Db, s: Submission)
    requires Consistent(db)
  {
    exists i :: i in db.indicators.rows && db.indicators.rows[i].assetid == AssetId(db, s)
      && db.indicators.rows[i].source == s.source && db.indicators.rows[i].timestamp == s.timestamp
  }

  lemma WithAssetKeeps(db: Db, s: Submission)
    requires Consistent(db)
    ensures Consistent(WithAsset(db, s)) && AssetId(db, s) in WithAsset(db, s).assets.rows
  {
  }

  /** The insert of the indicator breaks a constraint exactly when it is a duplicate. */
  lemma AfterIndicatorKeeps(db: Db, s: Submission)
    requires Consistent(db)
    ensures Consistent(AfterIndicator(db, s)) <==> !Duplicate(db, s)
  {
    WithAssetKeeps(db, s);
    var d, e := WithAsset(db, s), AfterIndicator(db, s);
    var rows := e.indicators.rows;
    assert rows[d.indicators.next] == IndicatorRow(s.timestamp, s.source, s.likelihood, AssetId(db, s));
    if Duplicate(db, s) {
      var i :| i in db.indicators.rows && db.indicators.rows[i].assetid == AssetId(db, s)
        && db.indicators.rows[i].source == s.source && db.indicators.rows[i].timestamp == s.timestamp;
      assert i != d.indicators.next && rows[i] == db.indicators.rows[i];
      assert !IndicatorKey(rows);
    } else {
      assert IndicatorKey(rows);
    }
  }

  /** The handler of a submitted indicator. */
  method SubmitIndicator(op: OpContext, t: TextOps, raw: RawIndicator) returns (reply: Reply)
    requires op.Valid()
    modifies op`db, op`step, op`seen, raw`likelihood
    ensures op.Valid()
    ensures reply.Rejected? <==>
      || raw.assettype == "" || raw.name == "" || raw.source == "" || raw.timestamp == 0
      || t.lower(old(raw.likelihood)) !in {"maximum", "high", "medium", "low", "unknown"}
    ensures !reply.Rejected? ==> raw.likelihood == t.lower(old(raw.likelihood))
    ensures reply.Rejected? ==> op.db == old(op.db)
    ensures
      var s := Submission(raw.assettype, raw.name, raw.zone, raw.timestamp, raw.source, raw.likelihood);
      && (reply.Accepted? ==> GoodSubmission(s) && !Duplicate(old(op.db), s) && op.db == AfterIndicator(old(op.db), s))
      && (reply.ServerError? ==> op.db == old(op.db) || op.db == WithAsset(old(op.db), s))
      && (!reply.Rejected? && op.Clean(old(op.step), op.step) ==> (reply.ServerError? <==> Duplicate(old(op.db), s)))
  {
    var err := raw.Validate(t);
    if err.Some? {
      return Rejected;
    }
    reply := StoreIndicator(op, raw,
      Submission(raw.assettype, raw.name, raw.zone, raw.timestamp, raw.source, raw.likelihood));
  }

  method StoreIndicator(op: OpContext, raw: RawIndicator, ghost s: Submission) returns (reply: Reply)
    requires op.Valid()
    requires s == Submission(raw.assettype, raw.name, raw.zone, raw.timestamp, raw.source, raw.likelihood)
    modifies op`db, op`step, op`seen
    ensures op.Valid() && !reply.Rejected?
    ensures reply.Accepted? ==> !Duplicate(old(op.db), s) && op.db == AfterIndicator(old(op.db), s)
    ensures reply.ServerError? ==> op.db == old(op.db) || op.db == WithAsset(old(op.db), s)
    ensures op.Clean(old(op.step), op.step) ==> (reply.ServerError? <==> Duplicate(old(op.db), s))
  {
    ghost var db0 := op.db;
    var ok, aid := AssetFromIndicator(op, raw, s);
    if !ok {
      return ServerError;
    }
    ok := InsertIndicatorRow(op, IndicatorRow(raw.timestamp, raw.source, raw.likelihood, aid), db0, s);
    return if ok then Accepted else ServerError;
  }

  method InsertIndicatorRow(op: OpContext, row: IndicatorRow, ghost db0: Db, ghost s: Submission) returns (ok: bool)
    requires op.Valid() && Consistent(db0) && op.db == WithAsset(db0, s)
    requires row == IndicatorRow(s.timestamp, s.source, s.likelihood, AssetId(db0, s))
    modifies op`db, op`step, op`seen
    ensures op.Valid() && op.step == old(op.step) + 1
    ensures ok <==> !op.fails(old(op.step)) && !Duplicate(db0, s)
    ensures op.db == if ok then AfterIndicator(db0, s) else old(op.db)
  {
    AfterIndicatorKeeps(db0, s);
    ok := op.Exec(InsertIndicator(row));
  }

  /** Look the asset up, or create it. */
  method AssetFromIndicator(op: OpContext, raw: RawIndicator, ghost s: Submission) returns (ok: bool, aid: nat)
    requires op.Valid()
    requires s == Submission(raw.assettype, raw.name, raw.zone, raw.timestamp, raw.source, raw.likelihood)
    modifies op`db, op`step, op`seen
    ensures op.Valid() && old(op.step) <= op.step
    ensures ok <==> op.Clean(old(op.step), op.step)
    ensures op.db == old(op.db) || op.db == WithAsset(old(op.db), s)
    ensures ok ==> op.db == WithAsset(old(op.db), s) && aid == AssetId(old(op.db), s)
  {
    aid := 0;
    ok := op.Query();
    if !ok {
      return;
    }
    var found := FindAsset(op.db.assets.rows, raw.assettype, raw.name, raw.zone);
    if found.Some? {
      aid := found.value;
    } else {
      aid := op.db.assets.next;
      ok := CreateAsset(op, AssetRow(raw.assettype, raw.name, raw.zone, None, None, None, raw.timestamp), s);
      if !ok {
        return;
      }
    }
    var asset: Asset;
    ok, asset := GetAsset(op, aid);
  }

  method CreateAsset(op: OpContext, row: AssetRow, ghost s: Submission) returns (ok: bool)
    requires op.Valid() && FindAsset(op.db.assets.rows, s.assettype, s.name, s.zone).None?
    requires row == AssetRow(s.assettype, s.name, s.zone, None, None, None, s.timestamp)
    modifies op`db, op`step, op`seen
    ensures op.Valid() && op.step == old(op.step) + 1 && (ok <==> !op.fails(old(op.step)))
    ensures op.db == if ok then WithAsset(old(op.db), s) else old(op.db)
  {
    WithAssetKeeps(op.db, s);
    ok := op.Exec(InsertAsset(row));
  }

  /* ---------- RRA submission and selection ---------- */

  predicate Submitted(rras: map<nat, RRARow>, row: RRARow) {
    exists id :: id in rras && rras[id].name == row.name && rras[id].lastUpdated == row.lastUpdated
  }

  function AfterRRA(db: Db, row: RRARow): Db {
    if Submitted(db.rras.rows, row) then db else db.(rras := Insert(db.rras, row))
  }

  lemma AfterRRAKeeps(db: Db, row: RRARow)
    requires Consistent(db)
    ensures Consistent(AfterRRA(db, row))
  {
  }

  /** The handler of a submitted RRA. */
  method UpdateRRA(op: OpContext, t: TextOps, raw: RawRRA) returns (reply: Reply)
    requires op.Valid()
    modifies op`db, op`step, op`seen, raw`details
    ensures op.Valid()
    ensures reply.Rejected? <==> !GoodDetails(t, old(raw.details))
    ensures reply.Accepted? ==>
      var row := ToRow(ValidateDetails(t, old(raw.details)).0, raw.lastModified);
      && Normalised(row) && op.db == AfterRRA(old(op.db), row)
      && row.name == ServiceName(t, old(raw.details).service)
      && row.defData == DataClass(t, old(raw.details).default)
    ensures !reply.Accepted? ==> op.db == old(op.db)
    ensures !reply.Rejected? ==> (reply.Accepted? <==> op.Clean(old(op.step), op.step))
  {
    var err, row := AcceptRRA(t, raw);
    if err.Some? {
      return Rejected;
    }
    var ok := InsertRow(op, row);
    return if ok then Accepted else ServerError;
  }

  method InsertRow(op: OpContext, row: RRARow) returns (ok: bool)
    requires op.Valid()
    modifies op`db, op`step, op`seen
    ensures op.Valid() && (ok <==> op.Clean(old(op.step), op.step))
    ensures op.db == if ok then AfterRRA(old(op.db), row) else old(op.db)
  {
    AfterRRAKeeps(op.db, row);
    ok := op.Exec(InsertRRA(row));
  }

  /** Validation and conversion of the submitted document. */
  method AcceptRRA(t: TextOps, raw: RawRRA) returns (err: Option<Error>, row: RRARow)
    modifies raw`details
    ensures row == ToRow(ValidateDetails(t, old(raw.details)).0, raw.lastModified)
    ensures err.None? <==> GoodDetails(t, old(raw.details))
    ensures err.None? ==> Normalised(row)
    ensures err.None? ==> row.name == ServiceName(t, old(raw.details).service)
    ensures err.None? ==> row.defData == DataClass(t, old(raw.details).default)
  {
    ValidateAccepts(t, raw.details, raw.lastModified);
    err := raw.Validate(t);
    row := ToRow(raw.details, raw.lastModified);
  }

  /** The ids of the RRAs with the maximal date of their service. */
  function Latest(rras: map<nat, RRARow>): set<nat> {
    set id | id in rras && forall j :: j in rras && rras[j].name == rras[id].name ==>
                             rras[j].lastUpdated <= rras[id].lastUpdated
  }

  /** The listing of the latest RRAs: each of them once. */
  method ServiceRRAs(op: OpContext) returns (ok: bool, ids: seq<nat>)
    modifies op`step
    ensures ok ==> forall id :: id in ids <==> id in Latest(op.db.rras.rows)
    ensures ok ==> forall i, j :: 0 <= i < j < |ids| ==> ids[i] != ids[j]
    ensures op.step == old(op.step) + 1 && (ok <==> !op.fails(old(op.step)))
  {
    ids := [];
    ok := op.Query();
    if ok {
      var rras := op.db.rras.rows;
      ids := Scan(map id | id in Latest(rras) :: 0);
    }
  }

  /* ---------- document assembly ---------- */

  const NO_ROW := RRARow("", 0, "", "", "", "", "", "", "", "", "", "", "", "", "", "", "", "", "", "", "")

  function GroupIndicators(db: Db, gid: nat): set<Indicator> {
    set a, x | a in db.assets.rows && db.assets.rows[a].group == Some(gid)
               && x in LatestIndicators(db.indicators.rows, a) :: x
  }

  /** The groups an RRA is assessed with: those linked to it that have a name. */
  function LinkedGroups(db: Db, links: seq<LinkRow>, rraid: nat): set<nat> {
    set l | l in links && l.rraid == rraid && l.group.Some? && l.group.value in db.groups.rows
            && db.groups.rows[l.group.value] != "" :: l.group.value
  }

  function LinkedIndicators(db: Db, rraid: nat): set<Indicator> {
    IndicatorsOfGroups(db, LinkedGroups(db, db.links, rraid))
  }

  function IndicatorsOfGroups(db: Db, groups: set<nat>): set<Indicator> {
    set g, x | g in groups && x in GroupIndicators(db, g) :: x
  }

  /** The assembled document of an RRA: its row and, through its groups, its indicators. An
      unknown id gives a document without a name. */
  ghost predicate IsRRA(db: Db, rraid: nat, rra: RRA) {
    if rraid in db.rras.rows then
      rra.row == db.rras.rows[rraid] && Seen(Indicators(rra.groups)) == LinkedIndicators(db, rraid)
    else rra == RRA(NO_ROW, [])
  }

  /** The document's group is the stored one, with exactly its assets and their latest indicators. */
  ghost predicate GroupIs(db: Db, g: AssetGroup) {
    g.id in db.groups.rows && g.name == db.groups.rows[g.id] && AssetsAre(db, g.id, g.assets)
  }

  ghost predicate AssetsAre(db: Db, gid: nat, assets: seq<Asset>) {
    && (forall q :: 0 <= q < |assets| ==> AssetIs(db, gid, assets[q]))
    && (forall a :: a in db.assets.rows && db.assets.rows[a].group == Some(gid) ==> HasAsset(assets, a))
    && |assets| == |Members(db, gid)|
  }

  function Members(db: Db, gid: nat): set<nat> {
    set a | a in db.assets.rows && db.assets.rows[a].group == Some(gid)
  }

  ghost predicate AssetIs(db: Db, gid: nat, a: Asset) {
    && a.id in db.assets.rows && db.assets.rows[a.id].group == Some(gid)
    && Seen(a.indicators) == LatestIndicators(db.indicators.rows, a.id)
  }

  ghost predicate HasAsset(assets: seq<Asset>, id: nat) {
    exists q :: 0 <= q < |assets| && assets[q].id == id
  }

  lemma AssetsIndicators(db: Db, gid: nat, assets: seq<Asset>)
    requires AssetsAre(db, gid, assets)
    ensures Seen(AssetIndicators(assets)) == GroupIndicators(db, gid)
  {
    forall x ensures x in AssetIndicators(assets) <==> x in GroupIndicators(db, gid) {
      IndicatorsOfAssets(assets, x);
      if q :| 0 <= q < |assets| && x in assets[q].indicators {
        assert AssetIs(db, gid, assets[q]) && x in Seen(assets[q].indicators);
      }
      if x in GroupIndicators(db, gid) {
        var a :| a in db.assets.rows && db.assets.rows[a].group == Some(gid)
          && x in LatestIndicators(db.indicators.rows, a);
        assert HasAsset(assets, a);
        var q :| 0 <= q < |assets| && assets[q].id == a;
        assert AssetIs(db, gid, assets[q]) && x in Seen(assets[q].indicators);
      }
    }
  }

  /** The group with its assets; a missing group has no name. */
  method GetAssetGroup(op: OpContext, gid: nat) returns (ok: bool, ret: AssetGroup)
    modifies op`step
    ensures old(op.step) <= op.step && (ok <==> op.Clean(old(op.step), op.step))
    ensures ok && gid in op.db.groups.rows ==> ret.id == gid && GroupIs(op.db, ret)
    ensures ok && gid !in op.db.groups.rows ==> ret.name == ""
  {
    ret := AssetGroup(0, "", []);
    ok := op.Query();
    if !ok || gid !in op.db.groups.rows {
      return;
    }
    var assets;
    ok, assets := GetAssets(op, gid);
    ret := AssetGroup(gid, op.db.groups.rows[gid], assets);
  }

  /** The assets of a group. */
  method GetAssets(op: OpContext, gid: nat) returns (ok: bool, assets: seq<Asset>)
    modifies op`step
    ensures old(op.step) <= op.step && (ok <==> op.Clean(old(op.step), op.step))
    ensures ok ==> AssetsAre(op.db, gid, assets)
  {
    assets := [];
    ok := op.Query();
    if !ok {
      return;
    }
    var db := op.db;
    var rest := Members(db, gid);
    while rest != {}
      invariant op.db == db && old(op.step) <= op.step && op.Clean(old(op.step), op.step)
      invariant rest <= Members(db, gid) && |assets| + |rest| == |Members(db, gid)|
      invariant forall q :: 0 <= q < |assets| ==> AssetIs(db, gid, assets[q])
      invariant forall a :: a in db.assets.rows && db.assets.rows[a].group == Some(gid) && a !in rest ==>
        HasAsset(assets, a)
      decreases |rest|
    {
      var aid :| aid in rest;
      var a: Asset;
      ghost var mid := op.step;
      ok, a := GetAsset(op, aid);
      op.CleanJoin(old(op.step), mid, op.step);
      if !ok {
        return;
      }
      AssetsMore(assets, a);
      assets := assets + [a];
      rest := rest - {aid};
    }
    ok := true;
  }

  lemma AssetsMore(assets: seq<Asset>, a: Asset)
    ensures HasAsset(assets + [a], a.id)
    ensures forall id :: HasAsset(assets, id) ==> HasAsset(assets + [a], id)
  {
    var more := assets + [a];
    assert more[|assets|] == a;
    forall id | HasAsset(assets, id) ensures HasAsset(more, id) {
      var q :| 0 <= q < |assets| && assets[q].id == id;
      assert more[q].id == id;
    }
  }

  lemma LinkedGroupsStep(db: Db, rraid: nat, links: seq<LinkRow>, l: LinkRow)
    ensures LinkedGroups(db, links + [l], rraid) ==
      if l.rraid == rraid && l.group.Some? && l.group.value in db.groups.rows && db.groups.rows[l.group.value] != ""
      then LinkedGroups(db, links, rraid) + {l.group.value}
      else LinkedGroups(db, links, rraid)
  {
  }

  /** Some link of the RRA has a NULL group. */
  predicate HasNullLink(db: Db, rraid: nat) {
    LinkRow(rraid, None) in db.links
  }

  /** The groups of the document are, each once, the named ones its links lead to. */
  ghost predicate GroupsAre(db: Db, links: seq<LinkRow>, rraid: nat, groups: seq<AssetGroup>) {
    && (forall p :: 0 <= p < |groups| ==> GroupIs(db, groups[p]) && groups[p].id in LinkedGroups(db, links, rraid))
    && (forall g :: g in LinkedGroups(db, links, rraid) ==> HasGroup(groups, g))
    && |groups| == |LinkedGroups(db, links, rraid)|
  }

  ghost predicate HasGroup(groups: seq<AssetGroup>, id: nat) {
    exists p :: 0 <= p < |groups| && groups[p].id == id
  }

  lemma GroupsMore(groups: seq<AssetGroup>, g: AssetGroup)
    ensures HasGroup(groups + [g], g.id)
    ensures forall id :: HasGroup(groups, id) ==> HasGroup(groups + [g], id)
  {
    var more := groups + [g];
    assert more[|groups|] == g;
    forall id | HasGroup(groups, id) ensures HasGroup(more, id) {
      var p :| 0 <= p < |groups| && groups[p].id == id;
      assert more[p].id == id;
    }
  }

  lemma GroupsAreMore(db: Db, rraid: nat, links: seq<LinkRow>, l: LinkRow, groups: seq<AssetGroup>, g: AssetGroup)
    requires GroupsAre(db, links, rraid, groups) && GroupIs(db, g) && g.name != ""
    requires l == LinkRow(rraid, Some(g.id)) && l !in links
    ensures GroupsAre(db, links + [l], rraid, groups + [g])
  {
    LinkedGroupsStep(db, rraid, links, l);
    GroupsMore(groups, g);
    assert g.id !in LinkedGroups(db, links, rraid);
  }

  lemma GroupsIndicators(db: Db, rraid: nat, groups: seq<AssetGroup>)
    requires GroupsAre(db, db.links, rraid, groups)
    ensures Seen(Indicators(groups)) == LinkedIndicators(db, rraid)
  {
    forall x ensures x in Indicators(groups) <==> x in LinkedIndicators(db, rraid) {
      GroupsIndicator(db, rraid, groups, x);
    }
  }

  lemma GroupsIndicator(db: Db, rraid: nat, groups: seq<AssetGroup>, x: Indicator)
    requires GroupsAre(db, db.links, rraid, groups)
    ensures x in Indicators(groups) <==> x in LinkedIndicators(db, rraid)
  {
    IndicatorsInGroup(groups, x);
    if p :| 0 <= p < |groups| && x in AssetIndicators(groups[p].assets) {
      AssetsIndicators(db, groups[p].id, groups[p].assets);
      assert x in Seen(AssetIndicators(groups[p].assets));
      assert groups[p].id in LinkedGroups(db, db.links, rraid);
    }
    if x in LinkedIndicators(db, rraid) {
      var g :| g in LinkedGroups(db, db.links, rraid) && x in GroupIndicators(db, g);
      assert HasGroup(groups, g);
      var p :| 0 <= p < |groups| && groups[p].id == g;
      AssetsIndicators(db, g, groups[p].assets);
      assert x in Seen(AssetIndicators(groups[p].assets));
    }
  }

  /** The fully populated document; reading a NULL group id is an error. */
  method GetRRA(op: OpContext, rraid: nat) returns (r: Result<RRA>)
    requires op.Valid()
    modifies op`step
    ensures old(op.step) <= op.step
    ensures r.Ok? ==> IsRRA(op.db, rraid, r.value)
    ensures r.Ok? && rraid in op.db.rras.rows ==> GroupsAre(op.db, op.db.links, rraid, r.value.groups)
    ensures r.Ok? <==> op.Clean(old(op.step), op.step) && !HasNullLink(op.db, rraid)
  {
    var ok := op.Query();
    if !ok {
      return Err(Error.Statement);
    }
    if rraid !in op.db.rras.rows {
      NoLinks(op.db, rraid);
      return Ok(RRA(NO_ROW, []));
    }
    ok := op.Query();
    if !ok {
      return Err(Error.Statement);
    }
    var groups: seq<AssetGroup>;
    ok, groups := ResolveSupportGroups(op, rraid);
    if !ok {
      return Err(NullColumn);
    }
    return Ok(RRA(op.db.rras.rows[rraid], groups));
  }

  lemma NoLinks(db: Db, rraid: nat)
    requires Consistent(db) && rraid !in db.rras.rows
    ensures !HasNullLink(db, rraid)
  {
  }

  method ResolveSupportGroups(op: OpContext, rraid: nat) returns (ok: bool, groups: seq<AssetGroup>)
    requires LinkRefs(op.db.links, op.db.rras.rows, op.db.groups.rows) && LinkKey(op.db.links)
    modifies op`step
    ensures old(op.step) <= op.step
    ensures ok <==> op.Clean(old(op.step), op.step) && !HasNullLink(op.db, rraid)
    ensures ok ==> GroupsAre(op.db, op.db.links, rraid, groups)
    ensures ok ==> Seen(Indicators(groups)) == LinkedIndicators(op.db, rraid)
  {
    groups := [];
    var db := op.db;
    var links := db.links;
    for i := 0 to |links|
      invariant op.db == db && old(op.step) <= op.step && op.Clean(old(op.step), op.step)
      invariant LinkRow(rraid, None) !in links[..i]
      invariant GroupsAre(db, links[..i], rraid, groups)
    {
      var l := links[i];
      assert links[..i + 1] == links[..i] + [l];
      LinkedGroupsStep(db, rraid, links[..i], l);
      if l.rraid != rraid {
        continue;
      }
      if l.group.None? {
        assert l in links;
        return false, groups;
      }
      var sg: AssetGroup;
      ghost var mid := op.step;
      ok, sg := GetAssetGroup(op, l.group.value);
      op.CleanJoin(old(op.step), mid, op.step);
      if !ok {
        return;
      }
      if sg.name == "" {
        continue;
      }
      GroupsAreMore(db, rraid, links[..i], l, groups, sg);
      groups := groups + [sg];
    }
    assert links[..|links|] == links;
    GroupsIndicators(db, rraid, groups);
    ok := true;
  }
}
