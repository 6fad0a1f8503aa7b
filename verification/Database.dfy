/** The database: tables, schema constraints, statements and the operation context
    through which the program reaches it. */
module Database {
  import opened Results
  import opened Rules
  import opened ServiceLib
  import opened Tables

  datatype OwnerRow = OwnerRow(operator: string, team: string)

  datatype AssetRow = AssetRow(
    assettype: string, name: string, zone: string,
    group: Option<nat>, owner: Option<nat>, triage: Option<string>, lastIndicator: int)

  datatype IndicatorRow = IndicatorRow(timestamp: int, source: string, likelihood: string, assetid: nat)

  /** A row of rra_assetgroup; the group is a nullable column. */
  datatype LinkRow = LinkRow(rraid: nat, group: Option<nat>)

  datatype RiskRow = RiskRow(rraid: nat, timestamp: int, risk: Risk)

  datatype Db = Db(
    groups: Table<string>,
    owners: Table<OwnerRow>,
    assets: Table<AssetRow>,
    rras: Table<RRARow>,
    indicators: Table<IndicatorRow>,
    links: seq<LinkRow>,
    risks: seq<RiskRow>)

  /* ---------- schema constraints ---------- */

  predicate AssetKey(assets: map<nat, AssetRow>) {
    forall i, j | i in assets && j in assets
      && assets[i].assettype == assets[j].assettype && assets[i].name == assets[j].name
      && assets[i].zone == assets[j].zone :: i == j
  }

  predicate AssetRefs(assets: map<nat, AssetRow>, groups: map<nat, string>, owners: map<nat, OwnerRow>) {
    forall id :: id in assets ==>
      && (assets[id].group.Some? ==> assets[id].group.value in groups)
      && (assets[id].owner.Some? ==> assets[id].owner.value in owners)
  }

  predicate RRAKey(rras: map<nat, RRARow>) {
    forall i, j | i in rras && j in rras
      && rras[i].name == rras[j].name && rras[i].lastUpdated == rras[j].lastUpdated :: i == j
  }

  predicate LinkKey(links: seq<LinkRow>) {
    forall i, j :: 0 <= i < j < |links| && links[i] == links[j] ==> links[i].group.None?
  }

  predicate LinkRefs(links: seq<LinkRow>, rras: map<nat, RRARow>, groups: map<nat, string>) {
    forall i :: 0 <= i < |links| ==>
      links[i].rraid in rras && (links[i].group.Some? ==> links[i].group.value in groups)
  }

  predicate IndicatorKey(indicators: map<nat, IndicatorRow>) {
    forall i, j | i in indicators && j in indicators
      && indicators[i].assetid == indicators[j].assetid
      && indicators[i].source == indicators[j].source
      && indicators[i].timestamp == indicators[j].timestamp :: i == j
  }

  predicate IndicatorRefs(indicators: map<nat, IndicatorRow>, assets: map<nat, AssetRow>) {
    forall i :: i in indicators ==> indicators[i].assetid in assets
  }

  predicate RiskRefs(risks: seq<RiskRow>, rras: map<nat, RRARow>) {
    forall i :: 0 <= i < |risks| ==> risks[i].rraid in rras
  }

  /** Every primary key, uniqueness and foreign key constraint of the schema. */
  predicate Consistent(db: Db) {
    && Serial(db.groups) && Distinct(db.groups.rows)
    && Serial(db.owners) && Distinct(db.owners.rows)
    && Serial(db.assets) && AssetKey(db.assets.rows)
    && AssetRefs(db.assets.rows, db.groups.rows, db.owners.rows)
    && Serial(db.rras) && RRAKey(db.rras.rows)
    && LinkKey(db.links) && LinkRefs(db.links, db.rras.rows, db.groups.rows)
    && Serial(db.indicators) && IndicatorKey(db.indicators.rows)
    && IndicatorRefs(db.indicators.rows, db.assets.rows)
    && RiskRefs(db.risks, db.rras.rows)
  }

  /* ---------- statements ---------- */

  datatype Statement =
    | InsertGroup(group: string)                        // if absent
    | InsertOwner(operator: string, team: string)       // if absent
    | ClearGroup(id: nat)                               // in asset
    | DeleteGroupLinks(id: nat)
    | DeleteGroup(id: nat)
    | ClearOwner(id: nat)                               // in asset
    | DeleteOwner(id: nat)
    | ClearGroupsOfType(assettype: string)
    | SetGroup(assettype: string, pattern: string, group: string)
    | ClearOwners
    | SetHostOwner(pattern: string, operator: string, team: string)
    | SetHostTriage(pattern: string, triage: Option<string>)
    | DeleteLinks
    | InsertLink(rraid: nat, group: string)             // if absent
    | InsertRRA(row: RRARow)                            // if absent
    | InsertAsset(asset: AssetRow)
    | InsertIndicator(indicator: IndicatorRow)
    | InsertRisk(risk: RiskRow)

  const HOSTNAME := "hostname"
  const WEBSITE := "website"

  /** What an UPDATE on the asset table makes of one row. */
  function UpdateRow(matches: Matcher, db: Db, s: Statement, a: AssetRow): AssetRow
    requires Distinct(db.groups.rows) && Distinct(db.owners.rows)
  {
    match s
    case ClearGroup(id) => if a.group == Some(id) then a.(group := None) else a
    case ClearOwner(id) => if a.owner == Some(id) then a.(owner := None) else a
    case ClearGroupsOfType(assettype) => if a.assettype == assettype then a.(group := None) else a
    case SetGroup(assettype, pattern, group) =>
      if a.assettype == assettype && matches(pattern, a.name) then
        a.(group := Find(db.groups.rows, group))
      else a
    case ClearOwners => a.(owner := None)
    case SetHostOwner(pattern, operator, team) =>
      if a.assettype == HOSTNAME && matches(pattern, a.name) then
        a.(owner := Find(db.owners.rows, OwnerRow(operator, team)))
      else a
    case SetHostTriage(pattern, triage) =>
      if a.assettype == HOSTNAME && matches(pattern, a.name) then a.(triage := triage) else a
    case _ => a
  }

  function UpdateAssets(matches: Matcher, db: Db, s: Statement): Db
    requires Distinct(db.groups.rows) && Distinct(db.owners.rows)
  {
    db.(assets := db.assets.(rows :=
      map id | id in db.assets.rows :: UpdateRow(matches, db, s, db.assets.rows[id])))
  }

  /** DELETE FROM rra_assetgroup WHERE assetgroupid is one of ids; a NULL is none of them. */
  function WithoutGroups(links: seq<LinkRow>, ids: set<nat>): (r: seq<LinkRow>) {
    if links == [] then []
    else
      var front := WithoutGroups(links[..|links| - 1], ids);
      var last := links[|links| - 1];
      if last.group.Some? && last.group.value in ids then front else front + [last]
  }

  /** The insert guard: no row has this RRA and this group. Comparing with the NULL of a
      missing group is never true, so the guard then always lets the row in. */
  predicate LinkAbsent(links: seq<LinkRow>, row: LinkRow) {
    row.group.None? || row !in links
  }

  /** The database with one more link row, unless it is there already. */
  function WithLink(db: Db, row: LinkRow): Db {
    if LinkAbsent(db.links, row) then db.(links := db.links + [row]) else db
  }

  /** The state a statement leaves, constraints aside. */
  function Apply(matches: Matcher, db: Db, s: Statement): Db
    requires Consistent(db)
  {
    match s
    case InsertGroup(group) => db.(groups := InsertAbsent(db.groups, group))
    case InsertOwner(operator, team) => db.(owners := InsertAbsent(db.owners, OwnerRow(operator, team)))
    case DeleteGroupLinks(id) => db.(links := WithoutGroups(db.links, {id}))
    case DeleteGroup(id) => db.(groups := Delete(db.groups, {id}))
    case DeleteOwner(id) => db.(owners := Delete(db.owners, {id}))
    case DeleteLinks => db.(links := [])
    case InsertLink(rraid, group) => WithLink(db, LinkRow(rraid, Find(db.groups.rows, group)))
    case InsertRRA(row) =>
      if exists id :: id in db.rras.rows && db.rras.rows[id].name == row.name
           && db.rras.rows[id].lastUpdated == row.lastUpdated
      then db else db.(rras := Insert(db.rras, row))
    case InsertAsset(asset) => db.(assets := Insert(db.assets, asset))
    case InsertIndicator(indicator) => db.(indicators := Insert(db.indicators, indicator))
    case InsertRisk(risk) => db.(risks := db.risks + [risk])
    case _ => UpdateAssets(matches, db, s)
  }

  /** Every row of a table, in whatever order the server returns them. */
  method Scan<V>(rows: map<nat, V>) returns (ids: seq<nat>)
    ensures forall i, j :: 0 <= i < j < |ids| ==> ids[i] != ids[j]
    ensures forall id :: id in ids <==> id in rows
  {
    ids := [];
    var rest := rows.Keys;
    while rest != {}
      invariant forall i, j :: 0 <= i < j < |ids| ==> ids[i] != ids[j]
      invariant forall id :: id in rest ==> id !in ids
      invariant forall id :: id in ids || id in rest <==> id in rows
      decreases |rest|
    {
      var id :| id in rest;
      ids := ids + [id];
      rest := rest - {id};
    }
  }

  /** Only the sequences of the reconciled tables may have moved on besides the rows an
      interlink run writes. */
  predicate Later(a: Db, b: Db) {
    a.groups.next <= b.groups.next && a.owners.next <= b.owners.next && a.assets.next == b.assets.next &&
    a.rras == b.rras && a.indicators == b.indicators && a.risks == b.risks
  }

  /** A connection. With a transaction open, `saved` is the state the other connections
      see and `db` the state this one works on. The server rejects the k-th call when
      fails(k) holds, besides rejecting every statement that would break a constraint. */
  class OpContext {
    const matches: Matcher
    const fails: nat -> bool
    var db: Db
    var saved: Option<Db>
    var step: nat
    ghost var seen: seq<Db>   // what the other connections could see after each call

    constructor (matches: Matcher, fails: nat -> bool, db: Db)
      ensures this.matches == matches && this.fails == fails
      ensures this.db == db && saved == None && step == 0 && seen == []
    {
      this.matches, this.fails, this.db, saved, step, seen := matches, fails, db, None, 0, [];
    }

    /** None of the calls numbered from..to was made to fail. */
    predicate Clean(from: nat, to: nat) {
      forall k: nat :: from <= k < to ==> !fails(k)
    }

    /* Calls in a row: one more, and two stretches. */

    lemma CleanNext(from: nat, to: nat)
      requires from <= to
      ensures Clean(from, to + 1) <==> Clean(from, to) && !fails(to)
    {
    }

    lemma CleanJoin(from: nat, mid: nat, to: nat)
      requires from <= mid <= to
      ensures Clean(from, to) <==> Clean(from, mid) && Clean(mid, to)
    {
    }

    /** The state every other connection sees. */
    function Visible(): Db
      reads this
    {
      if saved.Some? then saved.value else db
    }

    /** The calls from..to all succeeded, or all but the last. */
    predicate Stopped(ok: bool, from: nat, to: nat) {
      if ok then from <= to && Clean(from, to) else from < to && fails(to - 1) && Clean(from, to - 1)
    }

    lemma StoppedJoin(ok: bool, from: nat, mid: nat, to: nat)
      requires Stopped(true, from, mid) && Stopped(ok, mid, to)
      ensures Stopped(ok, from, to)
    {
    }

    predicate Valid()
      reads this
    {
      Consistent(db) && (saved.Some? ==> Consistent(saved.value))
    }

    /** What a stage of a run keeps, whether it succeeds or not: it stops at the first call
        made to fail and fails on no other, the schema holds, and inside a transaction nobody
        else ever saw a change. */
    twostate predicate Ran(ok: bool)
      reads this
    {
      && Stopped(ok, old(step), step)
      && Valid() && Later(old(db), db)
      && old(seen) <= seen
      && (saved.Some? ==> forall k :: |old(seen)| <= k < |seen| ==> seen[k] == saved.value)
    }

    method Begin() returns (ok: bool)
      requires saved.None?
      modifies `saved, `step, `seen
      ensures step == old(step) + 1
      ensures ok <==> !fails(old(step))
      ensures saved == if ok then Some(db) else None
      ensures seen == old(seen) + [db]
    {
      ok := !fails(step);
      step := step + 1;
      if ok {
        saved := Some(db);
      }
      seen := seen + [db];
    }

    method Exec(s: Statement) returns (ok: bool)
      requires Valid()
      modifies `db, `step, `seen
      ensures Valid()
      ensures step == old(step) + 1
      ensures ok <==> !fails(old(step)) && Consistent(Apply(matches, old(db), s))
      ensures db == if ok then Apply(matches, old(db), s) else old(db)
      ensures seen == old(seen) + [Visible()]
    {
      var next := Apply(matches, db, s);
      ok := !fails(step) && Consistent(next);
      step := step + 1;
      if ok {
        db := next;
      }
      seen := seen + [Visible()];
    }

    /** A read that succeeds or fails as a whole. */
    method Query() returns (ok: bool)
      modifies `step
      ensures step == old(step) + 1
      ensures ok <==> !fails(old(step))
    {
      ok := !fails(step);
      step := step + 1;
    }

    method Commit() returns (ok: bool)
      requires saved.Some?
      modifies `db, `saved, `step, `seen
      ensures step == old(step) + 1
      ensures ok <==> !fails(old(step))
      ensures saved.None?
      ensures db == if ok then old(db) else Undone(old(saved).value, old(db))
      ensures seen == old(seen) + [db]
    {
      ok := !fails(step);
      step := step + 1;
      if !ok {
        db := Undone(saved.value, db);
      }
      saved := None;
      seen := seen + [db];
    }

    /** A failed rollback ends the transaction all the same: the server drops it. */
    method Rollback() returns (ok: bool)
      requires saved.Some?
      modifies `db, `saved, `step, `seen
      ensures step == old(step) + 1
      ensures ok <==> !fails(old(step))
      ensures saved.None?
      ensures db == Undone(old(saved).value, old(db))
      ensures seen == old(seen) + [db]
    {
      ok := !fails(step);
      step := step + 1;
      db := Undone(saved.value, db);
      saved := None;
      seen := seen + [db];
    }
  }

  /** Undoing a transaction restores every row but not the sequences, which are not
      transactional. */
  function Undone(saved: Db, db: Db): Db {
    saved.(groups := saved.groups.(next := db.groups.next),
           owners := saved.owners.(next := db.owners.next),
           assets := saved.assets.(next := db.assets.next),
           rras := saved.rras.(next := db.rras.next),
           indicators := saved.indicators.(next := db.indicators.next))
  }

  /** The same rows in every table. */
  predicate SameRows(a: Db, b: Db) {
    a.groups.rows == b.groups.rows && a.owners.rows == b.owners.rows && a.assets.rows == b.assets.rows &&
    a.rras.rows == b.rras.rows && a.indicators.rows == b.indicators.rows &&
    a.links == b.links && a.risks == b.risks
  }
}
