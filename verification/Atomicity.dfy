/** Atomicity needs Begin: what a run without a transaction that stops early has changed, and
    when that is nothing. */
module Atomicity {
  import opened Results
  import opened Rules
  import opened Tables
  import opened Database
  import opened InterlinkSpec
  import opened SchemaKeeping
  import opened InterlinkPartial
  import opened Interlink

  /** The groups of the first n rules are there. */
  predicate AllPresent(db: Db, rules: seq<Rule>, n: nat)
    requires n <= |rules|
  {
    forall k :: 0 <= k < n ==> rules[k].destAssetGroupMatch in db.groups.rows.Values
  }

  predicate OwnersPresent(db: Db, rules: seq<Rule>, n: nat)
    requires n <= |rules|
  {
    forall k :: 0 <= k < n ==> OwnerRows(rules)[k] in db.owners.rows.Values
  }

  /** The groups are exactly those declared. */
  ghost predicate Settled(db: Db, rules: seq<Rule>) {
    AllPresent(db, rules, |rules|) && Undeclared(db.groups.rows, GroupNames(rules)) == {}
  }

  /** The first k statements of a removal find nothing: no asset in the group, no link to it. */
  ghost predicate Unused(db: Db, x: nat, k: nat) {
    && (k >= 1 ==> forall a :: a in db.assets.rows ==> db.assets.rows[a].group != Some(x))
    && (k >= 2 ==> forall row :: row in db.links ==> row.group != Some(x))
  }

  /** What a run got done in the reconciling stages was nothing, as can be seen before it. */
  ghost predicate Harmless(pre: Db, rules: seq<Rule>, at: Progress) {
    var groups, owners := OfType(rules, AssetGroupAdd), OfType(rules, OwnerAdd);
    match at
    case InGroups(Adding(n)) => n <= |groups| && AllPresent(pre, groups, n)
    case InGroups(Removing(gone, x, k)) => AllPresent(pre, groups, |groups|) && gone == {} && Unused(pre, x, k)
    case InOwners(Adding(n)) => Settled(pre, groups) && n <= |owners| && OwnersPresent(pre, owners, n)
    case InOwners(Removing(gone, x, k)) =>
      && Settled(pre, groups) && OwnersPresent(pre, owners, |owners|) && gone == {}
      && (k >= 1 ==> forall a :: a in pre.assets.rows ==> pre.assets.rows[a].owner != Some(x))
    case InLinks(_) => false
  }

  lemma NamesPresent(db: Db, rules: seq<Rule>, n: nat)
    requires n <= |rules|
    ensures AllPresent(db, rules, n) <==> forall v :: v in GroupNames(rules)[..n] ==> v in db.groups.rows.Values
    ensures OwnersPresent(db, rules, n) <==> forall v :: v in OwnerRows(rules)[..n] ==> v in db.owners.rows.Values
  {
    var names, pairs := GroupNames(rules)[..n], OwnerRows(rules)[..n];
    assert forall k :: 0 <= k < n ==> names[k] == rules[k].destAssetGroupMatch && pairs[k] == OwnerRows(rules)[k];
  }

  /** Inserting the declared groups in part changes nothing exactly when those inserted were
      all there before. */
  lemma NothingAdded(db: Db, rules: seq<Rule>, n: nat)
    requires Consistent(db) && n <= |rules|
    ensures SameRows(GroupsAdded(db, rules, n), db) <==> AllPresent(db, rules, n)
  {
    NamesPresent(db, rules, n);
    NothingReconciled(db.groups, GroupNames(rules)[..n], {});
    assert GroupsAdded(db, rules, n).groups.rows - {} == GroupsAdded(db, rules, n).groups.rows;
  }

  lemma NoOwnersAdded(db: Db, rules: seq<Rule>, n: nat)
    requires Consistent(db) && n <= |rules|
    ensures OwnersAdded(db, rules, n).owners.rows == db.owners.rows <==> OwnersPresent(db, rules, n)
  {
    NamesPresent(db, rules, n);
    NothingReconciled(db.owners, OwnerRows(rules)[..n], {});
    assert OwnersAdded(db, rules, n).owners.rows - {} == OwnersAdded(db, rules, n).owners.rows;
  }

  /** Removing undeclared groups after the inserts leaves the groups as they were exactly when
      there is nothing to insert and none is removed; and then everything is. */
  lemma NoGroupsDropped(db: Db, rules: seq<Rule>, gone: set<nat>)
    requires Consistent(db)
    requires gone <= Undeclared(GroupsAdded(db, rules, |rules|).groups.rows, GroupNames(rules))
    ensures var mid := DropGroups(GroupsAdded(db, rules, |rules|), gone);
      mid.groups.rows == db.groups.rows <==> AllPresent(db, rules, |rules|) && gone == {}
    ensures AllPresent(db, rules, |rules|) ==> GroupsAdded(db, rules, |rules|) == db
    ensures AllPresent(db, rules, |rules|) && gone == {} ==> DropGroups(GroupsAdded(db, rules, |rules|), gone) == db
  {
    assert GroupNames(rules)[..|rules|] == GroupNames(rules);
    NamesPresent(db, rules, |rules|);
    NothingReconciled(db.groups, GroupNames(rules), gone);
    DropNothing(db);
  }

  lemma NoOwnersDropped(db: Db, rules: seq<Rule>, gone: set<nat>)
    requires Consistent(db)
    requires gone <= Undeclared(OwnersAdded(db, rules, |rules|).owners.rows, OwnerRows(rules))
    ensures var mid := DropOwners(OwnersAdded(db, rules, |rules|), gone);
      mid.owners.rows == db.owners.rows <==> OwnersPresent(db, rules, |rules|) && gone == {}
    ensures OwnersPresent(db, rules, |rules|) && gone == {} ==> DropOwners(OwnersAdded(db, rules, |rules|), gone) == db
  {
    assert OwnerRows(rules)[..|rules|] == OwnerRows(rules);
    NamesPresent(db, rules, |rules|);
    NothingReconciled(db.owners, OwnerRows(rules), gone);
    DropNothing(db);
  }

  lemma {:induction false} WithoutAbsent(links: seq<LinkRow>, x: nat)
    requires forall row :: row in links ==> row.group != Some(x)
    ensures WithoutGroups(links, {x}) == links
  {
    if links != [] {
      WithoutAbsent(links[..|links| - 1], x);
      assert links[|links| - 1] in links;
    }
  }

  /** The statements of a removal change no row exactly when they find none. */
  lemma NothingUnassigned(matches: Matcher, db: Db, x: nat)
    requires Consistent(db)
    ensures SameRows(Unassigned(matches, db, x), db) <==> Unused(db, x, 1)
    ensures SameRows(Unlinked(matches, db, x), db) <==> Unused(db, x, 2)
  {
    var d := Unassigned(matches, db, x);
    assert d.assets.rows == db.assets.rows <==> Unused(db, x, 1) by {
      if a :| a in db.assets.rows && db.assets.rows[a].group == Some(x) {
        assert d.assets.rows[a].group.None?;
      }
    }
    WithoutGroupsFacts(db.links, {x});
    if forall row :: row in db.links ==> row.group != Some(x) {
      WithoutAbsent(db.links, x);
    }
  }

  lemma NothingDisowned(matches: Matcher, db: Db, x: nat)
    requires Consistent(db)
    ensures SameRows(Unowned(matches, db, x), db) <==>
      forall a :: a in db.assets.rows ==> db.assets.rows[a].owner != Some(x)
  {
    var d := Unowned(matches, db, x);
    if a :| a in db.assets.rows && db.assets.rows[a].owner == Some(x) {
      assert d.assets.rows[a].owner.None?;
    } else {
      assert d.assets.rows == db.assets.rows;
    }
  }

  lemma SettledStage(db: Db, rules: seq<Rule>)
    requires Consistent(db)
    ensures AfterGroupAdd(db, rules).groups.rows == db.groups.rows <==> Settled(db, rules)
    ensures Settled(db, rules) ==> AfterGroupAdd(db, rules) == db
  {
    var added := GroupsAdded(db, rules, |rules|);
    assert GroupNames(rules)[..|rules|] == GroupNames(rules);
    NoGroupsDropped(db, rules, Undeclared(added.groups.rows, GroupNames(rules)));
  }

  lemma HarmlessGroups(matches: Matcher, pre: Db, rules: seq<Rule>, gone: set<nat>, x: nat, k: nat, db: Db)
    requires Consistent(pre) && PartGroupAdd(matches, pre, rules, Removing(gone, x, k), db)
    ensures SameRows(db, pre) <==> AllPresent(pre, rules, |rules|) && gone == {} && Unused(pre, x, k)
  {
    NoGroupsDropped(pre, rules, gone);
    RemovingGroupKeeps(matches, DropGroups(GroupsAdded(pre, rules, |rules|), gone), x, k, db);
    NothingUnassigned(matches, pre, x);
  }

  lemma HarmlessOwners(matches: Matcher, pre: Db, rules: seq<Rule>, gone: set<nat>, x: nat, k: nat, db: Db)
    requires Consistent(pre) && PartOwnerAdd(matches, pre, rules, Removing(gone, x, k), db)
    ensures SameRows(db, pre) <==>
      && OwnersPresent(pre, rules, |rules|) && gone == {}
      && (k >= 1 ==> forall a :: a in pre.assets.rows ==> pre.assets.rows[a].owner != Some(x))
  {
    NoOwnersDropped(pre, rules, gone);
    RemovingOwnerKeeps(matches, DropOwners(OwnersAdded(pre, rules, |rules|), gone), x, k, db);
    NothingDisowned(matches, pre, x);
  }

  lemma OwnersLeaveGroups(matches: Matcher, db0: Db, rules: seq<Rule>, at: TableProgress, db: Db)
    requires PartOwnerAdd(matches, db0, rules, at, db)
    ensures db.groups.rows == db0.groups.rows
  {
  }

  /** A run without a transaction that stops in the reconciling stages has changed no row
      exactly when what it got done was nothing. */
  lemma NothingChanged(matches: Matcher, pre: Db, rules: seq<Rule>, at: Progress, db: Db)
    requires Consistent(pre) && Unfinished(matches, pre, rules, at, db) && !at.InLinks?
    ensures SameRows(db, pre) <==> Harmless(pre, rules, at)
  {
    var groups, owners := OfType(rules, AssetGroupAdd), OfType(rules, OwnerAdd);
    match at {
      case InGroups(Adding(n)) => NothingAdded(pre, groups, n);
      case InGroups(Removing(gone, x, k)) => HarmlessGroups(matches, pre, groups, gone, x, k, db);
      case InOwners(t) =>
        SettledStage(pre, groups);
        OwnersLeaveGroups(matches, AfterGroupAdd(pre, groups), owners, t, db);
        if Settled(pre, groups) {
          match t {
            case Adding(n) => NoOwnersAdded(pre, owners, n);
            case Removing(gone, x, k) => HarmlessOwners(matches, pre, owners, gone, x, k, db);
          }
        }
    }
  }

  /** Call 0 of a run is Begin, and the calls after it are the group inserts: Begin fails,
      then n inserts succeed and the next one fails. */
  predicate StopsAtInsert(op: OpContext, n: nat)
    reads op
  {
    op.fails(op.step) && op.Stopped(false, op.step + 1, op.step + 2 + n)
  }

  method StopAtInsert(op: OpContext, rules: seq<Rule>, n: nat) returns (out: Outcome)
    requires op.Valid() && op.saved.None? && StopsAtInsert(op, n)
    requires n < |OfType(rules, AssetGroupAdd)|
    modifies op
    ensures out.Panicked? && op.saved.None?
    ensures op.db == GroupsAdded(old(op.db), OfType(rules, AssetGroupAdd), n)
  {
    ghost var first, at := op.step, InGroups(Adding(n));
    out, at := RunRules(op, rules);
    assert op.fails(first + 1 + n);
  }

  /** Such a run panics, and the first n groups are there for everybody to see. Nothing has
      changed exactly when those n groups were there before. */
  method RunWithoutBegin(op: OpContext, rules: seq<Rule>, n: nat) returns (out: Outcome)
    requires op.Valid() && op.saved.None? && StopsAtInsert(op, n)
    requires n < |OfType(rules, AssetGroupAdd)|
    modifies op
    ensures out.Panicked? && op.saved.None? && op.Visible() == op.db
    ensures op.db == GroupsAdded(old(op.db), OfType(rules, AssetGroupAdd), n)
    ensures SameRows(op.db, old(op.db)) <==> AllPresent(old(op.db), OfType(rules, AssetGroupAdd), n)
  {
    NothingAdded(op.db, OfType(rules, AssetGroupAdd), n);
    out := StopAtInsert(op, rules, n);
  }

  const NO_ROWS := Db(Table(map[], 0), Table(map[], 0), Table(map[], 0), Table(map[], 0), Table(map[], 0), [], [])

  const TWO_GROUPS := [NewRule(AssetGroupAdd).(destAssetGroupMatch := "a"),
                       NewRule(AssetGroupAdd).(destAssetGroupMatch := "b")]

  /** With an empty database, two groups to add, and a server that rejects Begin and the
      second insert, a run leaves one of the groups. */
  method PartialRun(matches: Matcher) returns (out: Outcome, db: Db)
    ensures out.Panicked?
    ensures db == NO_ROWS.(groups := Table(map[0 := "a"], 1))
  {
    TwoGroups();
    var op := new OpContext(matches, k => k == 0 || k == 2, NO_ROWS);
    out := RunWithoutBegin(op, TWO_GROUPS, 1);
    db := op.db;
  }

  lemma TwoGroups()
    ensures Consistent(NO_ROWS)
    ensures |OfType(TWO_GROUPS, AssetGroupAdd)| == 2
    ensures GroupsAdded(NO_ROWS, OfType(TWO_GROUPS, AssetGroupAdd), 1) ==
      NO_ROWS.(groups := Table(map[0 := "a"], 1))
  {
    var a, b := TWO_GROUPS[0], TWO_GROUPS[1];
    assert TWO_GROUPS[..1] == [a] && [a][..0] == [];
    assert OfType([a], AssetGroupAdd) == [a];
    assert OfType(TWO_GROUPS, AssetGroupAdd) == TWO_GROUPS;
    var names := GroupNames(TWO_GROUPS);
    assert names[..1] == ["a"] && ["a"][..0] == [];
    assert AddMissing(NO_ROWS.groups, ["a"]) == InsertAbsent(NO_ROWS.groups, "a");
  }
}
