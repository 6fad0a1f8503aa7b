/** Which statements of an interlink run keep every schema constraint, and why. */
module SchemaKeeping {
  import opened Results
  import opened Rules
  import opened Tables
  import opened Database
  import opened InterlinkSpec

  lemma InsertGroupKeeps(matches: Matcher, db: Db, group: string)
    requires Consistent(db)
    ensures Consistent(Apply(matches, db, InsertGroup(group)))
  {
  }

  lemma InsertOwnerKeeps(matches: Matcher, db: Db, operator: string, team: string)
    requires Consistent(db)
    ensures Consistent(Apply(matches, db, InsertOwner(operator, team)))
  {
  }

  /** An UPDATE of assets writes NULL, the old reference or the result of a lookup, and
      never a key column. */
  lemma UpdateRowFacts(matches: Matcher, db: Db, s: Statement, a: AssetRow)
    requires Distinct(db.groups.rows) && Distinct(db.owners.rows)
    ensures var b := UpdateRow(matches, db, s, a);
      && b.assettype == a.assettype && b.name == a.name && b.zone == a.zone
      && (b.group == a.group || b.group.None? || b.group.value in db.groups.rows)
      && (b.owner == a.owner || b.owner.None? || b.owner.value in db.owners.rows)
  {
  }

  lemma UpdateKeeps(matches: Matcher, db: Db, s: Statement)
    requires Consistent(db)
    ensures Consistent(UpdateAssets(matches, db, s))
  {
    var e := UpdateAssets(matches, db, s);
    forall id | id in db.assets.rows
      ensures var a, b := db.assets.rows[id], e.assets.rows[id];
        && b.assettype == a.assettype && b.name == a.name && b.zone == a.zone
        && (b.group == a.group || b.group.None? || b.group.value in db.groups.rows)
        && (b.owner == a.owner || b.owner.None? || b.owner.value in db.owners.rows)
    {
      UpdateRowFacts(matches, db, s, db.assets.rows[id]);
    }
  }

  lemma WithoutGroupsKeeps(db: Db, ids: set<nat>)
    requires Consistent(db)
    ensures Consistent(db.(links := WithoutGroups(db.links, ids)))
  {
    var links := WithoutGroups(db.links, ids);
    WithoutGroupsFacts(db.links, ids);
    LinkKeyCounts(db.links);
    LinkKeyCounts(links);
    forall row: LinkRow | row.group.Some? ensures multiset(links)[row] <= 1 {
      assert multiset(links)[row] <= multiset(db.links)[row];
    }
    forall i | 0 <= i < |links|
      ensures links[i].rraid in db.rras.rows && (links[i].group.Some? ==> links[i].group.value in db.groups.rows)
    {
      assert links[i] in db.links;
    }
  }

  /** Deleting a group is safe once nothing refers to it. */
  lemma DeleteGroupKeeps(db: Db, id: nat)
    requires Consistent(db)
    requires forall a :: a in db.assets.rows ==> db.assets.rows[a].group != Some(id)
    requires forall row :: row in db.links ==> row.group != Some(id)
    ensures Consistent(db.(groups := Delete(db.groups, {id})))
  {
  }

  lemma DeleteOwnerKeeps(db: Db, id: nat)
    requires Consistent(db)
    requires forall a :: a in db.assets.rows ==> db.assets.rows[a].owner != Some(id)
    ensures Consistent(db.(owners := Delete(db.owners, {id})))
  {
  }

  lemma InsertLinkKeeps(matches: Matcher, db: Db, rraid: nat, group: string)
    requires Consistent(db) && rraid in db.rras.rows
    ensures Consistent(Apply(matches, db, InsertLink(rraid, group)))
  {
  }

  /* The states between the three statements that remove one group. */

  function Unassigned(matches: Matcher, db: Db, x: nat): Db
    requires Consistent(db)
  {
    UpdateAssets(matches, db, ClearGroup(x))
  }

  function Unlinked(matches: Matcher, db: Db, x: nat): Db
    requires Consistent(db)
  {
    var d := Unassigned(matches, db, x);
    d.(links := WithoutGroups(d.links, {x}))
  }

  function Removed(matches: Matcher, db: Db, x: nat): Db
    requires Consistent(db)
  {
    var d := Unlinked(matches, db, x);
    d.(groups := Delete(d.groups, {x}))
  }

  lemma UnassignedFacts(matches: Matcher, db: Db, x: nat)
    requires Consistent(db)
    ensures forall a :: a in Unassigned(matches, db, x).assets.rows ==>
      Unassigned(matches, db, x).assets.rows[a].group != Some(x)
  {
  }

  /** The three statements that remove one group each keep the schema, because the
      references go first. */
  lemma RemoveGroupKeeps(matches: Matcher, db: Db, x: nat)
    requires Consistent(db)
    ensures Consistent(Unassigned(matches, db, x))
    ensures Consistent(Unlinked(matches, db, x))
    ensures Consistent(Removed(matches, db, x))
  {
    UpdateKeeps(matches, db, ClearGroup(x));
    var d := Unassigned(matches, db, x);
    WithoutGroupsKeeps(d, {x});
    WithoutGroupsFacts(d.links, {x});
    UnassignedFacts(matches, db, x);
    DeleteGroupKeeps(Unlinked(matches, db, x), x);
  }

  /** Together they remove one more group. */
  lemma RemoveGroupEffect(matches: Matcher, db: Db, ids: set<nat>, x: nat)
    requires Consistent(DropGroups(db, ids))
    ensures Removed(matches, DropGroups(db, ids), x) == DropGroups(db, ids + {x})
  {
    WithoutGroupsTwice(db.links, ids, {x});
    assert db.groups.rows - ids - {x} == db.groups.rows - (ids + {x});
    ClearMoreGroups(matches, db, ids, x);
  }

  lemma ClearMoreGroups(matches: Matcher, db: Db, ids: set<nat>, x: nat)
    requires Consistent(DropGroups(db, ids))
    ensures Unassigned(matches, DropGroups(db, ids), x) == DropGroups(db, ids).(
      assets := db.assets.(rows := ClearedGroups(db.assets.rows, ids + {x})))
  {
    var e := Unassigned(matches, DropGroups(db, ids), x);
    ClearOneMore(db.assets.rows, ClearedGroups(db.assets.rows, ids), e.assets.rows, ids, x);
  }

  lemma ClearOneMore(a: map<nat, AssetRow>, b: map<nat, AssetRow>, c: map<nat, AssetRow>, ids: set<nat>, x: nat)
    requires b == ClearedGroups(a, ids) && c.Keys == a.Keys
    requires forall id :: id in b ==> c[id] == if b[id].group == Some(x) then b[id].(group := None) else b[id]
    ensures c == ClearedGroups(a, ids + {x})
  {
  }

  function Unowned(matches: Matcher, db: Db, x: nat): Db
    requires Consistent(db)
  {
    UpdateAssets(matches, db, ClearOwner(x))
  }

  function RemovedOwner(matches: Matcher, db: Db, x: nat): Db
    requires Consistent(db)
  {
    var d := Unowned(matches, db, x);
    d.(owners := Delete(d.owners, {x}))
  }

  /** The two statements that remove one owner keep the schema. */
  lemma RemoveOwnerKeeps(matches: Matcher, db: Db, x: nat)
    requires Consistent(db)
    ensures Consistent(Unowned(matches, db, x))
    ensures Consistent(RemovedOwner(matches, db, x))
  {
    UpdateKeeps(matches, db, ClearOwner(x));
    UnownedFacts(matches, db, x);
    DeleteOwnerKeeps(Unowned(matches, db, x), x);
  }

  lemma UnownedFacts(matches: Matcher, db: Db, x: nat)
    requires Consistent(db)
    ensures forall a :: a in Unowned(matches, db, x).assets.rows ==>
      Unowned(matches, db, x).assets.rows[a].owner != Some(x)
  {
  }

  lemma RemoveOwnerEffect(matches: Matcher, db: Db, ids: set<nat>, x: nat)
    requires Consistent(DropOwners(db, ids))
    ensures RemovedOwner(matches, DropOwners(db, ids), x) == DropOwners(db, ids + {x})
  {
    assert db.owners.rows - ids - {x} == db.owners.rows - (ids + {x});
    var e := Unowned(matches, DropOwners(db, ids), x);
    DisownOneMore(db.assets.rows, ClearedOwners(db.assets.rows, ids), e.assets.rows, ids, x);
  }

  lemma DisownOneMore(a: map<nat, AssetRow>, b: map<nat, AssetRow>, c: map<nat, AssetRow>, ids: set<nat>, x: nat)
    requires b == ClearedOwners(a, ids) && c.Keys == a.Keys
    requires forall id :: id in b ==> c[id] == if b[id].owner == Some(x) then b[id].(owner := None) else b[id]
    ensures c == ClearedOwners(a, ids + {x})
  {
  }

  lemma DropNothing(db: Db)
    ensures DropGroups(db, {}) == db && DropOwners(db, {}) == db
  {
    WithoutNothing(db.links);
    assert db.groups.rows - {} == db.groups.rows;
    assert db.owners.rows - {} == db.owners.rows;
    assert ClearedGroups(db.assets.rows, {}) == db.assets.rows;
    assert ClearedOwners(db.assets.rows, {}) == db.assets.rows;
  }
}
