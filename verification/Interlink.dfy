/** The six stages of an interlink run and the run itself. */
module Interlink {
  import opened Results
  import opened Sequences
  import opened Rules
  import opened ServiceLib
  import opened Tables
  import opened Database
  import opened InterlinkSpec
  import opened SchemaKeeping
  import opened InterlinkPartial

  /** Those of the scanned ids whose value is not declared. */
  ghost function Dropped<V>(rows: map<nat, V>, vals: seq<V>, ids: seq<nat>): set<nat> {
    set id | id in ids && id in rows && rows[id] !in vals
  }

  lemma DroppedStep<V>(rows: map<nat, V>, vals: seq<V>, ids: seq<nat>, i: nat)
    requires i < |ids| && ids[i] in rows && forall j, k :: 0 <= j < k < |ids| ==> ids[j] != ids[k]
    ensures ids[i] !in Dropped(rows, vals, ids[..i])
    ensures Dropped(rows, vals, ids[..i + 1]) ==
      if rows[ids[i]] in vals then Dropped(rows, vals, ids[..i]) else Dropped(rows, vals, ids[..i]) + {ids[i]}
  {
  }

  lemma DroppedAll<V>(rows: map<nat, V>, vals: seq<V>, ids: seq<nat>)
    requires forall id :: id in ids <==> id in rows
    ensures Dropped(rows, vals, ids[..|ids|]) == Undeclared(rows, vals)
    ensures Dropped(rows, vals, ids[..0]) == {}
  {
  }

  method DeclaresGroup(rules: seq<Rule>, name: string) returns (found: bool)
    ensures found <==> name in GroupNames(rules)
  {
    found := false;
    for j := 0 to |rules|
      invariant !found
      invariant forall k :: 0 <= k < j ==> GroupNames(rules)[k] != name
    {
      if name == rules[j].destAssetGroupMatch {
        assert GroupNames(rules)[j] == name;
        return true;
      }
    }
  }

  method AddGroup(op: OpContext, group: string) returns (ok: bool)
    requires op.Valid()
    modifies op`db, op`step, op`seen
    ensures op.Ran(ok) && op.step == old(op.step) + 1
    ensures ok ==> op.db == old(op.db).(groups := InsertAbsent(old(op.db).groups, group))
    ensures !ok ==> op.db == old(op.db)
  {
    InsertGroupKeeps(op.matches, op.db, group);
    ok := op.Exec(InsertGroup(group));
  }

  method AddOwner(op: OpContext, operator: string, team: string) returns (ok: bool)
    requires op.Valid()
    modifies op`db, op`step, op`seen
    ensures op.Ran(ok) && op.step == old(op.step) + 1
    ensures ok ==> op.db == old(op.db).(owners := InsertAbsent(old(op.db).owners, OwnerRow(operator, team)))
    ensures !ok ==> op.db == old(op.db)
  {
    InsertOwnerKeeps(op.matches, op.db, operator, team);
    ok := op.Exec(InsertOwner(operator, team));
  }

  /** The inserts of the group stage, stopping at the first that fails. */
  method AddGroups(op: OpContext, rules: seq<Rule>) returns (ok: bool, ghost n: nat)
    requires op.Valid()
    modifies op`db, op`step, op`seen
    ensures op.Ran(ok) && n <= |rules| && op.db == GroupsAdded(old(op.db), rules, n)
    ensures if ok then n == |rules| && op.step == old(op.step) + n else op.step == old(op.step) + n + 1
  {
    ghost var db0 := op.db;
    n := 0;
    for i := 0 to |rules|
      invariant op.Ran(true) && n == i && op.step == old(op.step) + n
      invariant op.db == GroupsAdded(db0, rules, n)
    {
      GroupAddedStep(db0, rules, i);
      ok := AddGroup(op, rules[i].destAssetGroupMatch);
      if !ok {
        return;
      }
      n := n + 1;
    }
    ok := true;
  }

  /** Add the missing groups, then remove the undeclared ones. */
  method RunAssetGroupAdd(op: OpContext, rules: seq<Rule>) returns (ok: bool, ghost at: TableProgress)
    requires op.Valid()
    modifies op`db, op`step, op`seen
    ensures op.Ran(ok)
    ensures ok ==> op.db == AfterGroupAdd(old(op.db), rules) && op.step == old(op.step) + GroupCalls(old(op.db), rules)
    ensures !ok ==> PartGroupAdd(op.matches, old(op.db), rules, at, op.db)
    ensures !ok ==> op.step == old(op.step) + TableCalls(at, |rules|, 3) + 1
  {
    ghost var n, listed, gone, x, k;
    ok, n := AddGroups(op, rules);
    at := Adding(n);
    if !ok {
      return;
    }
    assert GroupNames(rules)[..|rules|] == GroupNames(rules);
    ok, listed, gone, x, k := PruneGroups(op, rules, Undeclared(op.db.groups.rows, GroupNames(rules)));
    if listed {
      at := Removing(gone, x, k);
    }
  }

  /** List the groups and remove those no rule declares. */
  method PruneGroups(op: OpContext, rules: seq<Rule>, ghost undeclared: set<nat>)
    returns (ok: bool, ghost listed: bool, ghost gone: set<nat>, ghost x: nat, ghost k: nat)
    requires op.Valid() && undeclared == Undeclared(op.db.groups.rows, GroupNames(rules))
    modifies op`db, op`step, op`seen
    ensures op.Ran(ok)
    ensures ok ==> gone == undeclared && op.db == DropGroups(old(op.db), gone)
    ensures ok ==> op.step == old(op.step) + 1 + 3 * |gone|
    ensures !ok && !listed ==> op.db == old(op.db) && op.step == old(op.step) + 1
    ensures !ok && listed ==> PartPrune(op.matches, old(op.db), undeclared, gone, x, k, op.db)
    ensures !ok && listed ==> op.step == old(op.step) + 1 + 3 * |gone| + k + 1
  {
    gone, x, k := {}, 0, 0;
    ok := op.Query();
    listed := ok;
    if !ok {
      return;
    }
    var rows := op.db.groups.rows;
    var grps := Scan(rows);
    ok, gone, x, k := RemoveGroups(op, rules, undeclared, rows, grps);
  }

  /** The statements that remove one group: references first, then the group. */
  method RemoveGroup(op: OpContext, x: nat) returns (ok: bool, ghost k: nat)
    requires op.Valid()
    modifies op`db, op`step, op`seen
    ensures op.Ran(ok)
    ensures ok ==> op.db == Removed(op.matches, old(op.db), x) && op.step == old(op.step) + 3
    ensures !ok ==> RemovingGroup(op.matches, old(op.db), x, k, op.db) && op.step == old(op.step) + k + 1
  {
    ghost var db0 := op.db;
    k := 0;
    ok := Update(op, ClearGroup(x));
    if !ok {
      return;
    }
    ok, k := RemoveUnassigned(op, db0, x);
  }

  method RemoveUnassigned(op: OpContext, ghost db0: Db, x: nat) returns (ok: bool, ghost k: nat)
    requires op.Valid() && Consistent(db0) && op.db == Unassigned(op.matches, db0, x)
    modifies op`db, op`step, op`seen
    ensures op.Ran(ok)
    ensures ok ==> op.db == Removed(op.matches, db0, x) && op.step == old(op.step) + 2
    ensures !ok ==> RemovingGroup(op.matches, db0, x, k, op.db) && op.step == old(op.step) + k
  {
    k := 1;
    ok := RemoveLinks(op, db0, x);
    if !ok {
      return;
    }
    k := 2;
    ok := RemoveUnlinked(op, db0, x);
  }

  method RemoveLinks(op: OpContext, ghost db0: Db, x: nat) returns (ok: bool)
    requires op.Valid() && Consistent(db0) && op.db == Unassigned(op.matches, db0, x)
    modifies op`db, op`step, op`seen
    ensures op.Ran(ok) && op.step == old(op.step) + 1
    ensures op.db == if ok then Unlinked(op.matches, db0, x) else old(op.db)
  {
    RemoveGroupKeeps(op.matches, db0, x);
    ok := op.Exec(DeleteGroupLinks(x));
  }

  method RemoveUnlinked(op: OpContext, ghost db0: Db, x: nat) returns (ok: bool)
    requires op.Valid() && Consistent(db0) && op.db == Unlinked(op.matches, db0, x)
    modifies op`db, op`step, op`seen
    ensures op.Ran(ok) && op.step == old(op.step) + 1
    ensures op.db == if ok then Removed(op.matches, db0, x) else old(op.db)
  {
    RemoveGroupKeeps(op.matches, db0, x);
    ok := op.Exec(DeleteGroup(x));
  }

  /** One turn of the loop below, after the removal of others. */
  method RemoveGroupAfter(op: OpContext, ghost db0: Db, ghost gone: set<nat>, x: nat) returns (ok: bool, ghost k: nat)
    requires op.Valid() && op.db == DropGroups(db0, gone)
    modifies op`db, op`step, op`seen
    ensures op.Ran(ok)
    ensures ok ==> op.db == DropGroups(db0, gone + {x}) && op.step == old(op.step) + 3
    ensures !ok ==> RemovingGroup(op.matches, DropGroups(db0, gone), x, k, op.db) && op.step == old(op.step) + k + 1
  {
    RemoveGroupEffect(op.matches, db0, gone, x);
    ok, k := RemoveGroup(op, x);
  }

  method RemoveGroups(op: OpContext, rules: seq<Rule>, ghost undeclared: set<nat>, rows: map<nat, string>,
                      grps: seq<nat>)
    returns (ok: bool, ghost gone: set<nat>, ghost left: nat, ghost k: nat)
    requires op.Valid() && rows == op.db.groups.rows && undeclared == Undeclared(rows, GroupNames(rules))
    requires forall id :: id in grps <==> id in rows
    requires forall i, j :: 0 <= i < j < |grps| ==> grps[i] != grps[j]
    modifies op`db, op`step, op`seen
    ensures op.Ran(ok)
    ensures ok ==> gone == undeclared && op.db == DropGroups(old(op.db), gone)
    ensures ok ==> op.step == old(op.step) + 3 * |gone|
    ensures !ok ==> PartPrune(op.matches, old(op.db), undeclared, gone, left, k, op.db)
    ensures !ok ==> op.step == old(op.step) + 3 * |gone| + k + 1
  {
    ghost var db0 := op.db;
    ghost var vals := GroupNames(rules);
    gone, left, k := {}, 0, 0;
    DropNothing(db0);
    DroppedAll(rows, vals, grps);
    for i := 0 to |grps|
      invariant gone == Dropped(rows, vals, grps[..i])
      invariant op.Ran(true) && op.step == old(op.step) + 3 * |gone|
      invariant op.db == DropGroups(db0, gone)
    {
      var x := grps[i];
      DroppedStep(rows, vals, grps, i);
      var found := DeclaresGroup(rules, rows[x]);
      if found {
        continue;
      }
      left := x;
      ok, k := RemoveGroupAfter(op, db0, gone, x);
      if !ok {
        return;
      }
      gone := gone + {x};
    }
    ok := true;
  }

  method DeclaresOwner(rules: seq<Rule>, owner: OwnerRow) returns (found: bool)
    ensures found <==> owner in OwnerRows(rules)
  {
    found := false;
    for j := 0 to |rules|
      invariant !found
      invariant forall k :: 0 <= k < j ==> OwnerRows(rules)[k] != owner
    {
      if owner.team == rules[j].destTeam && owner.operator == rules[j].destOperator {
        assert OwnerRows(rules)[j] == owner;
        return true;
      }
    }
  }

  /** The inserts of the owner stage, stopping at the first that fails. */
  method AddOwners(op: OpContext, rules: seq<Rule>) returns (ok: bool, ghost n: nat)
    requires op.Valid()
    modifies op`db, op`step, op`seen
    ensures op.Ran(ok) && n <= |rules| && op.db == OwnersAdded(old(op.db), rules, n)
    ensures if ok then n == |rules| && op.step == old(op.step) + n else op.step == old(op.step) + n + 1
  {
    ghost var db0 := op.db;
    n := 0;
    for i := 0 to |rules|
      invariant op.Ran(true) && n == i && op.step == old(op.step) + n
      invariant op.db == OwnersAdded(db0, rules, n)
    {
      OwnerAddedStep(db0, rules, i);
      ok := AddOwner(op, rules[i].destOperator, rules[i].destTeam);
      if !ok {
        return;
      }
      n := n + 1;
    }
    ok := true;
  }

  /** Add the missing owners, then remove the undeclared ones. */
  method RunOwnerAdd(op: OpContext, rules: seq<Rule>) returns (ok: bool, ghost at: TableProgress)
    requires op.Valid()
    modifies op`db, op`step, op`seen
    ensures op.Ran(ok)
    ensures ok ==> op.db == AfterOwnerAdd(old(op.db), rules) && op.step == old(op.step) + OwnerCalls(old(op.db), rules)
    ensures !ok ==> PartOwnerAdd(op.matches, old(op.db), rules, at, op.db)
    ensures !ok ==> op.step == old(op.step) + TableCalls(at, |rules|, 2) + 1
  {
    ghost var n, listed, gone, x, k;
    ok, n := AddOwners(op, rules);
    at := Adding(n);
    if !ok {
      return;
    }
    assert OwnerRows(rules)[..|rules|] == OwnerRows(rules);
    ok, listed, gone, x, k := PruneOwners(op, rules, Undeclared(op.db.owners.rows, OwnerRows(rules)));
    if listed {
      at := Removing(gone, x, k);
    }
  }

  /** List the owners and remove those no rule declares. */
  method PruneOwners(op: OpContext, rules: seq<Rule>, ghost undeclared: set<nat>)
    returns (ok: bool, ghost listed: bool, ghost gone: set<nat>, ghost x: nat, ghost k: nat)
    requires op.Valid() && undeclared == Undeclared(op.db.owners.rows, OwnerRows(rules))
    modifies op`db, op`step, op`seen
    ensures op.Ran(ok)
    ensures ok ==> gone == undeclared && op.db == DropOwners(old(op.db), gone)
    ensures ok ==> op.step == old(op.step) + 1 + 2 * |gone|
    ensures !ok && !listed ==> op.db == old(op.db) && op.step == old(op.step) + 1
    ensures !ok && listed ==> PartPruneOwners(op.matches, old(op.db), undeclared, gone, x, k, op.db)
    ensures !ok && listed ==> op.step == old(op.step) + 1 + 2 * |gone| + k + 1
  {
    gone, x, k := {}, 0, 0;
    ok := op.Query();
    listed := ok;
    if !ok {
      return;
    }
    var rows := op.db.owners.rows;
    var own := Scan(rows);
    ok, gone, x, k := RemoveOwners(op, rules, undeclared, rows, own);
  }

  method RemoveOwner(op: OpContext, x: nat) returns (ok: bool, ghost k: nat)
    requires op.Valid()
    modifies op`db, op`step, op`seen
    ensures op.Ran(ok)
    ensures ok ==> op.db == RemovedOwner(op.matches, old(op.db), x) && op.step == old(op.step) + 2
    ensures !ok ==> RemovingOwner(op.matches, old(op.db), x, k, op.db) && op.step == old(op.step) + k + 1
  {
    RemoveOwnerKeeps(op.matches, op.db, x);
    k := 0;
    ok := op.Exec(ClearOwner(x));
    if !ok {
      return;
    }
    k := 1;
    ok := op.Exec(DeleteOwner(x));
  }

  /** One turn of the loop below, after the removal of others. */
  method RemoveOwnerAfter(op: OpContext, ghost db0: Db, ghost gone: set<nat>, x: nat) returns (ok: bool, ghost k: nat)
    requires op.Valid() && op.db == DropOwners(db0, gone)
    modifies op`db, op`step, op`seen
    ensures op.Ran(ok)
    ensures ok ==> op.db == DropOwners(db0, gone + {x}) && op.step == old(op.step) + 2
    ensures !ok ==> RemovingOwner(op.matches, DropOwners(db0, gone), x, k, op.db) && op.step == old(op.step) + k + 1
  {
    RemoveOwnerEffect(op.matches, db0, gone, x);
    ok, k := RemoveOwner(op, x);
  }

  method RemoveOwners(op: OpContext, rules: seq<Rule>, ghost undeclared: set<nat>, rows: map<nat, OwnerRow>,
                      own: seq<nat>)
    returns (ok: bool, ghost gone: set<nat>, ghost left: nat, ghost k: nat)
    requires op.Valid() && rows == op.db.owners.rows && undeclared == Undeclared(rows, OwnerRows(rules))
    requires forall id :: id in own <==> id in rows
    requires forall i, j :: 0 <= i < j < |own| ==> own[i] != own[j]
    modifies op`db, op`step, op`seen
    ensures op.Ran(ok)
    ensures ok ==> gone == undeclared && op.db == DropOwners(old(op.db), gone)
    ensures ok ==> op.step == old(op.step) + 2 * |gone|
    ensures !ok ==> PartPruneOwners(op.matches, old(op.db), undeclared, gone, left, k, op.db)
    ensures !ok ==> op.step == old(op.step) + 2 * |gone| + k + 1
  {
    ghost var db0 := op.db;
    ghost var vals := OwnerRows(rules);
    gone, left, k := {}, 0, 0;
    DropNothing(db0);
    DroppedAll(rows, vals, own);
    for i := 0 to |own|
      invariant gone == Dropped(rows, vals, own[..i])
      invariant op.Ran(true) && op.step == old(op.step) + 2 * |gone|
      invariant op.db == DropOwners(db0, gone)
    {
      var x := own[i];
      DroppedStep(rows, vals, own, i);
      var found := DeclaresOwner(rules, rows[x]);
      if found {
        continue;
      }
      left := x;
      ok, k := RemoveOwnerAfter(op, db0, gone, x);
      if !ok {
        return;
      }
      gone := gone + {x};
    }
    ok := true;
  }

  /** One UPDATE of the asset table. */
  method Update(op: OpContext, s: Statement) returns (ok: bool)
    requires op.Valid()
    requires s.ClearGroup? || s.ClearGroupsOfType? || s.SetGroup?
      || s.ClearOwners? || s.SetHostOwner? || s.SetHostTriage?
    modifies op`db, op`step, op`seen
    ensures op.Ran(ok) && op.step == old(op.step) + 1
    ensures op.db == if ok then UpdateAssets(op.matches, old(op.db), s) else old(op.db)
  {
    UpdateKeeps(op.matches, op.db, s);
    ok := op.Exec(s);
  }

  /** Link the hostnames, or the websites, to groups: clear the links, then apply each rule. */
  method RunGroupLink(op: OpContext, assettype: string, source: Source, rules: seq<Rule>)
    returns (ok: bool, ghost calls: nat)
    requires op.Valid()
    modifies op`db, op`step, op`seen
    ensures op.Ran(ok)
    ensures ok ==> op.db == AfterGroupLink(op.matches, old(op.db), assettype, source, rules)
    ensures ok ==> op.step == old(op.step) + 1 + |rules|
    ensures !ok ==> PartGroupLink(op.matches, old(op.db), assettype, source, rules, calls, op.db)
    ensures !ok ==> op.step == old(op.step) + calls + 1
  {
    ghost var db0 := op.db;
    calls := 0;
    GroupLinkStart(op.matches, db0, assettype, source);
    ok := Update(op, ClearGroupsOfType(assettype));
    if !ok {
      return;
    }
    calls := 1;
    for i := 0 to |rules|
      invariant op.Ran(true) && calls == 1 + i && op.step == old(op.step) + calls
      invariant op.db == AfterGroupLink(op.matches, db0, assettype, source, rules[..i])
    {
      GroupLinkStep(op.matches, db0, assettype, source, rules, i);
      ok := Update(op, SetGroup(assettype, Pattern(source, rules[i]), rules[i].destAssetGroupMatch));
      if !ok {
        return;
      }
      calls := calls + 1;
    }
    assert rules[..|rules|] == rules;
  }

  /** The two statements of one ownership rule: owner, then triage override or its reset. */
  method ApplyOwnership(op: OpContext, r: Rule) returns (ok: bool, ghost half: bool)
    requires op.Valid()
    modifies op`db, op`step, op`seen
    ensures op.Ran(ok)
    ensures ok ==>
      var d := UpdateAssets(op.matches, old(op.db), SetHostOwner(r.srcHostMatch, r.destOperator, r.destTeam));
      op.db == UpdateAssets(op.matches, d, SetHostTriage(r.srcHostMatch, Override(r)))
    ensures !ok ==> op.db == if half then OwnerHalf(op.matches, old(op.db), r) else old(op.db)
    ensures op.step == old(op.step) + if ok || half then 2 else 1
  {
    half := false;
    ok := Update(op, SetHostOwner(r.srcHostMatch, r.destOperator, r.destTeam));
    if !ok {
      return;
    }
    half := true;
    if r.destTriageOverride != "" {
      ok := Update(op, SetHostTriage(r.srcHostMatch, Some(r.destTriageOverride)));
    } else {
      ok := Update(op, SetHostTriage(r.srcHostMatch, None));
    }
  }

  /** One turn of the ownership loop, after the rules before rule i. */
  method LinkOwner(op: OpContext, ghost db0: Db, rules: seq<Rule>, i: nat)
    returns (ok: bool, ghost at: OwnershipProgress)
    requires op.Valid() && i < |rules| && Distinct(db0.groups.rows) && Distinct(db0.owners.rows)
    requires op.db == AfterOwnerLink(op.matches, db0, rules[..i])
    modifies op`db, op`step, op`seen
    ensures op.Ran(ok)
    ensures ok ==> op.db == AfterOwnerLink(op.matches, db0, rules[..i + 1]) && op.step == old(op.step) + 2
    ensures !ok ==> PartOwnerLink(op.matches, db0, rules, at, op.db)
    ensures !ok ==> 2 * i + op.step == old(op.step) + OwnershipCalls(at)
  {
    OwnerLinkStep(op.matches, db0, rules, i);
    ghost var half;
    ok, half := ApplyOwnership(op, rules[i]);
    at := Owned(i, half);
  }

  /** Link the hostnames to owners and set or clear their triage override. */
  method RunHostOwnerLink(op: OpContext, rules: seq<Rule>) returns (ok: bool, ghost at: OwnershipProgress)
    requires op.Valid()
    modifies op`db, op`step, op`seen
    ensures op.Ran(ok)
    ensures ok ==> op.db == AfterOwnerLink(op.matches, old(op.db), rules)
    ensures ok ==> op.step == old(op.step) + 1 + 2 * |rules|
    ensures !ok ==> PartOwnerLink(op.matches, old(op.db), rules, at, op.db)
    ensures !ok ==> op.step == old(op.step) + OwnershipCalls(at) + 1
  {
    ghost var db0 := op.db;
    at := NotReset;
    OwnerLinkStart(op.matches, db0);
    ok := Update(op, ClearOwners);
    if !ok {
      return;
    }
    for i := 0 to |rules|
      invariant op.Ran(true) && op.step == old(op.step) + 1 + 2 * i
      invariant op.db == AfterOwnerLink(op.matches, db0, rules[..i])
    {
      ok, at := LinkOwner(op, db0, rules, i);
      if !ok {
        return;
      }
    }
    assert rules[..|rules|] == rules;
  }

  method ClearLinks(op: OpContext) returns (ok: bool)
    requires op.Valid()
    modifies op`db, op`step, op`seen
    ensures op.Ran(ok) && op.step == old(op.step) + 1
    ensures op.db == if ok then old(op.db).(links := []) else old(op.db)
  {
    ok := op.Exec(DeleteLinks);
  }

  method AddLink(op: OpContext, rraid: nat, group: string) returns (ok: bool)
    requires op.Valid() && rraid in op.db.rras.rows
    modifies op`db, op`step, op`seen
    ensures op.Ran(ok) && op.step == old(op.step) + 1
    ensures ok ==> op.db == WithLink(old(op.db), LinkRow(rraid, Find(old(op.db).groups.rows, group)))
    ensures !ok ==> op.db == old(op.db)
  {
    InsertLinkKeeps(op.matches, op.db, rraid, group);
    ok := op.Exec(InsertLink(rraid, group));
  }

  /** The RRAs whose service matches, in any order. */
  method SelectRRAs(matches: Matcher, rras: map<nat, RRARow>, pattern: string) returns (ids: seq<nat>)
    ensures forall i, j :: 0 <= i < j < |ids| ==> ids[i] != ids[j]
    ensures forall id :: id in ids <==> id in Matching(matches, rras, pattern)
    ensures |ids| == |Matching(matches, rras, pattern)|
  {
    var rows := map id | id in rras && matches(pattern, rras[id].name) :: rras[id];
    ids := Scan(rows);
    DistinctLength(ids, Matching(matches, rras, pattern));
  }

  /** One guarded insert, after those of the RRAs in `done`. */
  method LinkOne(op: OpContext, rules: seq<Rule>, i: nat, ghost done: seq<nat>, x: nat) returns (ok: bool)
    requires op.Valid() && i < |rules| && x in op.db.rras.rows && x !in done
    requires op.matches(rules[i].destServiceMatch, op.db.rras.rows[x].name)
    requires LinksPartly(op.matches, op.db, rules, i, done)
    modifies op`db, op`step, op`seen
    ensures op.Ran(ok) && op.step == old(op.step) + 1
    ensures ok ==> op.db == old(op.db).(links := op.db.links)
    ensures ok ==> LinksPartly(op.matches, op.db, rules, i, done + [x])
    ensures !ok ==> op.db == old(op.db)
  {
    LinksInsert(op.matches, op.db, rules, i, done, x);
    ok := AddLink(op, x, rules[i].srcAssetGroupMatch);
  }

  /** The guarded inserts of one service-link rule. */
  method InsertLinks(op: OpContext, rules: seq<Rule>, i: nat, rraids: seq<nat>) returns (ok: bool, ghost done: seq<nat>)
    requires op.Valid() && i < |rules|
    requires forall j, k :: 0 <= j < k < |rraids| ==> rraids[j] != rraids[k]
    requires forall x :: x in rraids ==> x in Matching(op.matches, op.db.rras.rows, rules[i].destServiceMatch)
    requires LinksPartly(op.matches, op.db, rules, i, [])
    modifies op`db, op`step, op`seen
    ensures op.Ran(ok)
    ensures op.db == old(op.db).(links := op.db.links)
    ensures done <= rraids && LinksPartly(op.matches, op.db, rules, i, done)
    ensures if ok then done == rraids && op.step == old(op.step) + |done| else op.step == old(op.step) + |done| + 1
  {
    ghost var db0 := op.db;
    done := [];
    for j := 0 to |rraids|
      invariant op.Ran(true) && done == rraids[..j] && op.step == old(op.step) + j
      invariant op.db == db0.(links := op.db.links)
      invariant LinksPartly(op.matches, op.db, rules, i, done)
    {
      var x := rraids[j];
      assert x in rraids && x !in rraids[..j];
      ok := LinkOne(op, rules, i, done, x);
      if !ok {
        return;
      }
      done := done + [x];
      assert rraids[..j + 1] == rraids[..j] + [x];
    }
    assert rraids[..|rraids|] == rraids;
    ok := true;
  }

  /** Apply one service-link rule to each RRA it matches. */
  method LinkServices(op: OpContext, ghost db0: Db, rules: seq<Rule>, i: nat)
    returns (ok: bool, ghost at: ServiceProgress)
    requires op.Valid() && i < |rules| && Distinct(db0.groups.rows) && op.db == db0.(links := op.db.links)
    requires LinksAre(op.matches, op.db, rules[..i])
    modifies op`db, op`step, op`seen
    ensures op.Ran(ok)
    ensures op.db == db0.(links := op.db.links)
    ensures ok ==> LinksAre(op.matches, op.db, rules[..i + 1])
    ensures ok ==>
      op.step == old(op.step) + 1 + |Matching(op.matches, db0.rras.rows, rules[i].destServiceMatch)|
    ensures !ok ==> PartServiceLink(op.matches, db0, rules, at, op.db)
    ensures !ok ==>
      LinkCalls(op.matches, db0.rras.rows, rules[..i]) + op.step ==
      old(op.step) + ServiceCalls(op.matches, db0.rras.rows, rules, at)
  {
    at := Listing(i);
    ok := op.Query();
    if !ok {
      return;
    }
    var rraids := SelectRRAs(op.matches, op.db.rras.rows, rules[i].destServiceMatch);
    LinksOpen(op.matches, op.db, rules, i);
    ghost var done;
    ok, done := InsertLinks(op, rules, i, rraids);
    at := Linking(i, done);
    if ok {
      LinksClose(op.matches, op.db, rules, i, rraids);
    }
  }

  lemma LinkCallsStep(matches: Matcher, rras: map<nat, RRARow>, rules: seq<Rule>, i: nat)
    requires i < |rules|
    ensures LinkCalls(matches, rras, rules[..i + 1]) ==
      LinkCalls(matches, rras, rules[..i]) + 1 + |Matching(matches, rras, rules[i].destServiceMatch)|
  {
    assert rules[..i + 1][..i] == rules[..i];
  }

  /** Link the groups to the services they support. */
  method RunAssetGroupServiceLink(op: OpContext, rules: seq<Rule>) returns (ok: bool, ghost at: ServiceProgress)
    requires op.Valid()
    modifies op`db, op`step, op`seen
    ensures op.Ran(ok)
    ensures op.db == old(op.db).(links := op.db.links)
    ensures ok ==> LinksAre(op.matches, op.db, rules)
    ensures !ok ==> PartServiceLink(op.matches, old(op.db), rules, at, op.db)
    ensures !ok ==> op.step == old(op.step) + ServiceCalls(op.matches, old(op.db).rras.rows, rules, at) + 1
  {
    ghost var db0 := op.db;
    at := NotEmptied;
    ok := ClearLinks(op);
    if !ok {
      return;
    }
    LinksStart(op.matches, op.db);
    for i := 0 to |rules|
      invariant op.Ran(true) && op.step == old(op.step) + 1 + LinkCalls(op.matches, db0.rras.rows, rules[..i])
      invariant op.db == db0.(links := op.db.links)
      invariant LinksAre(op.matches, op.db, rules[..i])
    {
      LinkCallsStep(op.matches, db0.rras.rows, rules, i);
      ok, at := LinkServices(op, db0, rules, i);
      if !ok {
        return;
      }
    }
    assert rules[..|rules|] == rules;
  }

  datatype Outcome = Committed | RolledBack | Panicked

  /** The two reconciling stages. */
  method RunAdds(op: OpContext, rules: seq<Rule>) returns (ok: bool, ghost at: Progress)
    requires op.Valid()
    modifies op`db, op`step, op`seen
    ensures op.Ran(ok)
    ensures ok ==> op.db == AfterAdds(old(op.db), rules) && op.step == old(op.step) + AddCalls(old(op.db), rules)
    ensures !ok ==> Unfinished(op.matches, old(op.db), rules, at, op.db)
    ensures !ok ==> op.step == old(op.step) + CallsDone(op.matches, old(op.db), rules, at) + 1
  {
    ghost var t;
    var r := GetRulesType(rules, AssetGroupAdd);
    ok, t := RunAssetGroupAdd(op, r);
    at := InGroups(t);
    if !ok {
      return;
    }
    r := GetRulesType(rules, OwnerAdd);
    ok, t := RunOwnerAdd(op, r);
    at := InOwners(t);
  }

  /** The six stages in order; stops at the first one that fails. */
  method RunStages(op: OpContext, rules: seq<Rule>) returns (ok: bool, ghost at: Progress)
    requires op.Valid()
    modifies op`db, op`step, op`seen
    ensures op.Ran(ok)
    ensures ok ==> IsRun(op.matches, old(op.db), rules, op.db)
    ensures ok ==> op.step > old(op.step) + |OfType(rules, AssetGroupAdd)|
    ensures !ok ==> Unfinished(op.matches, old(op.db), rules, at, op.db)
    ensures !ok ==> op.step == old(op.step) + CallsDone(op.matches, old(op.db), rules, at) + 1
  {
    ghost var db0 := op.db;
    ok, at := RunAdds(op, rules);
    if !ok {
      return;
    }
    ghost var links, mid := InHosts(0), op.step;
    ok, links := RunLinks(op, rules);
    op.StoppedJoin(ok, old(op.step), mid, op.step);
    at := InLinks(links);
    if ok {
      StagesCompose(op.matches, db0, rules, op.db);
    }
  }

  method RunLinks(op: OpContext, rules: seq<Rule>) returns (ok: bool, ghost at: LinkProgress)
    requires op.Valid()
    modifies op`db, op`step, op`seen
    ensures op.Ran(ok)
    ensures ok ==> op.db == AfterLinking(op.matches, old(op.db), rules).(links := op.db.links)
    ensures ok ==> LinksAre(op.matches, op.db, OfType(rules, AssetGroupLinkService))
    ensures !ok ==> PartLinks(op.matches, old(op.db), rules, at, op.db)
    ensures !ok ==> op.step == old(op.step) + PartLinksCalls(op.matches, old(op.db).rras.rows, rules, at) + 1
  {
    ghost var db0 := op.db;
    ghost var calls, own;
    var r := GetRulesType(rules, HostLinkAssetGroup);
    ok, calls := RunGroupLink(op, HOSTNAME, Host, r);
    at := InHosts(calls);
    if !ok {
      return;
    }
    r := GetRulesType(rules, HostOwnership);
    ok, own := RunHostOwnerLink(op, r);
    at := InOwnership(own);
    if !ok {
      return;
    }
    ok, at := RunLastLinks(op, db0, rules);
  }

  /** The last two of these stages, from the state the first two left. */
  method RunLastLinks(op: OpContext, ghost db0: Db, rules: seq<Rule>) returns (ok: bool, ghost at: LinkProgress)
    requires op.Valid() && Distinct(db0.groups.rows) && Distinct(db0.owners.rows)
    requires op.db == HostsOwned(op.matches, db0, rules)
    modifies op`db, op`step, op`seen
    ensures op.Ran(ok)
    ensures ok ==> op.db == AfterLinking(op.matches, db0, rules).(links := op.db.links)
    ensures ok ==> LinksAre(op.matches, op.db, OfType(rules, AssetGroupLinkService))
    ensures !ok ==> PartLinks(op.matches, db0, rules, at, op.db)
    ensures !ok ==>
      2 + |OfType(rules, HostLinkAssetGroup)| + 2 * |OfType(rules, HostOwnership)| + op.step ==
      old(op.step) + PartLinksCalls(op.matches, db0.rras.rows, rules, at) + 1
  {
    ghost var calls, services;
    var r := GetRulesType(rules, WebsiteLinkAssetGroup);
    ok, calls := RunGroupLink(op, WEBSITE, Website, r);
    at := InWebsites(calls);
    if !ok {
      return;
    }
    r := GetRulesType(rules, AssetGroupLinkService);
    ok, services := RunAssetGroupServiceLink(op, r);
    at := InServices(services);
  }

  /** A complete run. The error of a failed Begin is ignored, so every statement then takes
      effect at once; rolling back without a transaction is a nil dereference. In that case
      `at` is where it stopped. */
  method RunRules(op: OpContext, rules: seq<Rule>) returns (out: Outcome, ghost at: Progress)
    requires op.Valid() && op.saved.None?
    modifies op
    ensures op.Valid() && op.saved.None? && Later(old(op.db), op.db)
    ensures old(op.step) < op.step && old(op.seen) <= op.seen
    // a run commits exactly when no call after Begin was made to fail
    ensures out.Committed? <==> op.Clean(old(op.step) + 1, op.step)
    ensures out.Committed? ==> IsRun(op.matches, old(op.db), rules, op.db)
    ensures out.Committed? ==> op.step > old(op.step) + 1 + |OfType(rules, AssetGroupAdd)|
    // atomicity, provided that Begin succeeded
    ensures !op.fails(old(op.step)) && !out.Committed? ==> SameRows(op.db, old(op.db))
    ensures !op.fails(old(op.step)) ==>
      forall k :: |old(op.seen)| <= k < |op.seen| ==> op.seen[k] == old(op.db) || op.seen[k] == op.db
    // without one, it panics at the first failing call and leaves what the calls before it did
    ensures op.fails(old(op.step)) && !out.Committed? ==>
      && out.Panicked? && op.Stopped(false, old(op.step) + 1, op.step)
      && Unfinished(op.matches, old(op.db), rules, at, op.db)
      && op.step == old(op.step) + CallsDone(op.matches, old(op.db), rules, at) + 2
  {
    var begun := op.Begin();
    var ok;
    ok, at := RunStages(op, rules);
    out := Close(op, ok);
  }

  /** The end of a run: commit, or roll back what a failed stage did. */
  method Close(op: OpContext, ok: bool) returns (out: Outcome)
    requires op.Valid() && (op.saved.Some? ==> Later(op.saved.value, op.db))
    modifies op
    ensures op.Valid() && op.saved.None? && Later(old(op.db), op.db)
    ensures old(op.step) <= op.step
    ensures out.Committed? <==> ok && op.Clean(old(op.step), op.step)
    ensures out.Committed? || old(op.saved).None? ==> op.db == old(op.db)
    ensures !out.Committed? && old(op.saved).Some? ==> SameRows(op.db, old(op.saved).value)
    ensures op.seen == old(op.seen) || op.seen == old(op.seen) + [op.db]
    ensures old(op.saved).None? ==> !out.RolledBack? && op.step == old(op.step)
  {
    if op.saved.None? {
      return if ok then Committed else Panicked;
    }
    UndoneFacts(op.saved.value, op.db);
    if ok {
      var done := op.Commit();
      return if done then Committed else Panicked;
    }
    var undone := op.Rollback();
    return if undone then RolledBack else Panicked;
  }

  lemma UndoneFacts(saved: Db, db: Db)
    requires Consistent(saved) && Later(saved, db)
    ensures Consistent(Undone(saved, db)) && SameRows(Undone(saved, db), saved) && Later(db, Undone(saved, db))
  {
  }
}
