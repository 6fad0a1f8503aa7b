/** What each stage of an interlink run, and the run as a whole, makes of the database. */
module InterlinkSpec {
  import opened Results
  import opened Sequences
  import opened Rules
  import opened ServiceLib
  import opened Tables
  import opened Database

  /* ---------- declared values ---------- */

  function GroupNames(rules: seq<Rule>): seq<string> {
    seq(|rules|, i requires 0 <= i < |rules| => rules[i].destAssetGroupMatch)
  }

  function OwnerRows(rules: seq<Rule>): seq<OwnerRow> {
    seq(|rules|, i requires 0 <= i < |rules| => OwnerRow(rules[i].destOperator, rules[i].destTeam))
  }

  /* ---------- removing groups and owners ---------- */

  function ClearedGroups(assets: map<nat, AssetRow>, ids: set<nat>): map<nat, AssetRow> {
    map id | id in assets ::
      if assets[id].group.Some? && assets[id].group.value in ids then assets[id].(group := None)
      else assets[id]
  }

  function ClearedOwners(assets: map<nat, AssetRow>, ids: set<nat>): map<nat, AssetRow> {
    map id | id in assets ::
      if assets[id].owner.Some? && assets[id].owner.value in ids then assets[id].(owner := None)
      else assets[id]
  }

  function DropGroups(db: Db, ids: set<nat>): Db {
    db.(groups := Delete(db.groups, ids),
        assets := db.assets.(rows := ClearedGroups(db.assets.rows, ids)),
        links := WithoutGroups(db.links, ids))
  }

  function DropOwners(db: Db, ids: set<nat>): Db {
    db.(owners := Delete(db.owners, ids),
        assets := db.assets.(rows := ClearedOwners(db.assets.rows, ids)))
  }

  function AfterGroupAdd(db: Db, rules: seq<Rule>): Db {
    var added := db.(groups := AddMissing(db.groups, GroupNames(rules)));
    DropGroups(added, Undeclared(added.groups.rows, GroupNames(rules)))
  }

  function AfterOwnerAdd(db: Db, rules: seq<Rule>): Db {
    var added := db.(owners := AddMissing(db.owners, OwnerRows(rules)));
    DropOwners(added, Undeclared(added.owners.rows, OwnerRows(rules)))
  }

  /* ---------- linking assets ---------- */

  /** The group named by the last matching rule; NULL if none matches or it is undeclared. */
  function GroupFor(matches: Matcher, groups: map<nat, string>, source: Source, rules: seq<Rule>, name: string)
    : Option<nat>
    requires Distinct(groups)
  {
    var k := LastMatch(matches, source, rules, name);
    if k < 0 then None else Find(groups, rules[k].destAssetGroupMatch)
  }

  /** The owner named by the last matching ownership rule; NULL if none matches or it is undeclared. */
  function OwnerFor(matches: Matcher, owners: map<nat, OwnerRow>, rules: seq<Rule>, name: string): Option<nat>
    requires Distinct(owners)
  {
    var k := LastMatch(matches, Host, rules, name);
    if k < 0 then None else Find(owners, OwnerRow(rules[k].destOperator, rules[k].destTeam))
  }

  function Override(r: Rule): Option<string> {
    if r.destTriageOverride != "" then Some(r.destTriageOverride) else None
  }

  /** The override of the last matching ownership rule; unchanged if none matches. */
  function TriageFor(matches: Matcher, rules: seq<Rule>, name: string, was: Option<string>): Option<string> {
    var k := LastMatch(matches, Host, rules, name);
    if k < 0 then was else Override(rules[k])
  }

  function AfterGroupLink(matches: Matcher, db: Db, assettype: string, source: Source, rules: seq<Rule>): Db
    requires Distinct(db.groups.rows)
  {
    db.(assets := db.assets.(rows :=
      map id | id in db.assets.rows ::
        var a := db.assets.rows[id];
        if a.assettype == assettype then
          a.(group := GroupFor(matches, db.groups.rows, source, rules, a.name))
        else a))
  }

  function OwnerLinked(matches: Matcher, owners: map<nat, OwnerRow>, rules: seq<Rule>, a: AssetRow): AssetRow
    requires Distinct(owners)
  {
    if a.assettype == HOSTNAME then
      a.(owner := OwnerFor(matches, owners, rules, a.name), triage := TriageFor(matches, rules, a.name, a.triage))
    else a.(owner := None)
  }

  function AfterOwnerLink(matches: Matcher, db: Db, rules: seq<Rule>): Db
    requires Distinct(db.owners.rows)
  {
    db.(assets := db.assets.(rows :=
      map id | id in db.assets.rows :: OwnerLinked(matches, db.owners.rows, rules, db.assets.rows[id])))
  }

  /* ---------- linking services ---------- */

  predicate Links(matches: Matcher, groups: map<nat, string>, r: Rule, service: string, group: Option<nat>)
    requires Distinct(groups)
  {
    matches(r.destServiceMatch, service) && Find(groups, r.srcAssetGroupMatch) == group
  }

  /** How many of the rules match the service and name the group (None: an undeclared one). */
  function LinkingRules(matches: Matcher, groups: map<nat, string>, rules: seq<Rule>, service: string,
                        group: Option<nat>): nat
    requires Distinct(groups)
  {
    if rules == [] then 0
    else
      LinkingRules(matches, groups, rules[..|rules| - 1], service, group) +
      if Links(matches, groups, rules[|rules| - 1], service, group) then 1 else 0
  }

  /** How often a row occurs in rra_assetgroup after a run: a row with a group once if some
      rule links the two, a row with a NULL group once per such rule. */
  function LinkCount(matches: Matcher, groups: map<nat, string>, rras: map<nat, RRARow>, rules: seq<Rule>,
                     row: LinkRow): nat
    requires Distinct(groups)
  {
    if row.rraid !in rras then 0
    else
      var n := LinkingRules(matches, groups, rules, rras[row.rraid].name, row.group);
      if row.group.Some? && n > 1 then 1 else n
  }

  ghost predicate LinksAre(matches: Matcher, db: Db, rules: seq<Rule>)
    requires Distinct(db.groups.rows)
  {
    forall row :: multiset(db.links)[row] == LinkCount(matches, db.groups.rows, db.rras.rows, rules, row)
  }

  /* ---------- the whole run ---------- */

  function FinalRow(matches: Matcher, rules: seq<Rule>, groups: map<nat, string>, owners: map<nat, OwnerRow>,
                    a: AssetRow): AssetRow
    requires Distinct(groups) && Distinct(owners)
  {
    if a.assettype == HOSTNAME then
      a.(group := GroupFor(matches, groups, Host, OfType(rules, HostLinkAssetGroup), a.name),
         owner := OwnerFor(matches, owners, OfType(rules, HostOwnership), a.name),
         triage := TriageFor(matches, OfType(rules, HostOwnership), a.name, a.triage))
    else if a.assettype == WEBSITE then
      a.(group := GroupFor(matches, groups, Website, OfType(rules, WebsiteLinkAssetGroup), a.name),
         owner := None)
    else
      a.(group := if a.group.Some? && a.group.value in groups then a.group else None,
         owner := None)
  }

  /** The declarative specification of a successful run. */
  ghost predicate IsRun(matches: Matcher, pre: Db, rules: seq<Rule>, post: Db)
  {
    && post.groups == Reconcile(pre.groups, GroupNames(OfType(rules, AssetGroupAdd)))
    && post.owners == Reconcile(pre.owners, OwnerRows(OfType(rules, OwnerAdd)))
    && Distinct(post.groups.rows) && Distinct(post.owners.rows)
    && post.assets == pre.assets.(rows :=
         map id | id in pre.assets.rows ::
           FinalRow(matches, rules, post.groups.rows, post.owners.rows, pre.assets.rows[id]))
    && LinksAre(matches, post, OfType(rules, AssetGroupLinkService))
    && post.rras == pre.rras && post.indicators == pre.indicators && post.risks == pre.risks
  }

  /** The state after the two reconciling stages. */
  function AfterAdds(db: Db, rules: seq<Rule>): Db {
    AfterOwnerAdd(AfterGroupAdd(db, OfType(rules, AssetGroupAdd)), OfType(rules, OwnerAdd))
  }

  /** The reconciling stages leave an asset its group unless the group was removed. */
  lemma AddFacts(db: Db, rules: seq<Rule>)
    requires Consistent(db)
    ensures var b := AfterAdds(db, rules);
      && b.groups == Reconcile(db.groups, GroupNames(OfType(rules, AssetGroupAdd)))
      && b.owners == Reconcile(db.owners, OwnerRows(OfType(rules, OwnerAdd)))
      && Distinct(b.groups.rows) && Distinct(b.owners.rows)
      && b.assets.rows.Keys == db.assets.rows.Keys && b.assets.next == db.assets.next
      && forall id :: id in db.assets.rows ==>
           var a := db.assets.rows[id];
           b.assets.rows[id] == a.(owner := b.assets.rows[id].owner,
             group := if a.group.Some? && a.group.value in b.groups.rows then a.group else None)
  {
    var names := GroupNames(OfType(rules, AssetGroupAdd));
    ReconcileFacts(db.groups, names);
    ReconcileFacts(db.owners, OwnerRows(OfType(rules, OwnerAdd)));
    AddMissingFacts(db.groups, names);
    var b := AfterAdds(db, rules);
    var added := AddMissing(db.groups, names).rows;
    forall id | id in db.assets.rows && db.assets.rows[id].group.Some?
      ensures db.assets.rows[id].group.value in Undeclared(added, names) <==>
        db.assets.rows[id].group.value !in b.groups.rows
    {
      assert db.assets.rows[id].group.value in db.groups.rows;
    }
  }

  /** The three stages that link assets, in order. */
  function AfterLinking(matches: Matcher, db: Db, rules: seq<Rule>): Db
    requires Distinct(db.groups.rows) && Distinct(db.owners.rows)
  {
    var c := AfterGroupLink(matches, db, HOSTNAME, Host, OfType(rules, HostLinkAssetGroup));
    var d := AfterOwnerLink(matches, c, OfType(rules, HostOwnership));
    AfterGroupLink(matches, d, WEBSITE, Website, OfType(rules, WebsiteLinkAssetGroup))
  }

  lemma LinkingFacts(matches: Matcher, db: Db, rules: seq<Rule>)
    requires Distinct(db.groups.rows) && Distinct(db.owners.rows)
    ensures var e := AfterLinking(matches, db, rules);
      && e == db.(assets := e.assets) && e.assets.next == db.assets.next
      && e.assets.rows.Keys == db.assets.rows.Keys
      && forall id :: id in db.assets.rows ==>
           var a := db.assets.rows[id];
           e.assets.rows[id] ==
             if a.assettype == HOSTNAME || a.assettype == WEBSITE then
               FinalRow(matches, rules, db.groups.rows, db.owners.rows, a)
             else a.(owner := None)
  {
  }

  lemma RowsFromFacts(matches: Matcher, rules: seq<Rule>, groups: map<nat, string>, owners: map<nat, OwnerRow>,
                      pre: map<nat, AssetRow>, mid: map<nat, AssetRow>, post: map<nat, AssetRow>)
    requires Distinct(groups) && Distinct(owners)
    requires pre.Keys == mid.Keys == post.Keys
    requires forall id :: id in pre ==>
      mid[id] == pre[id].(owner := mid[id].owner,
        group := if pre[id].group.Some? && pre[id].group.value in groups then pre[id].group else None)
    requires forall id :: id in mid ==>
      post[id] == if mid[id].assettype == HOSTNAME || mid[id].assettype == WEBSITE then
                    FinalRow(matches, rules, groups, owners, mid[id])
                  else mid[id].(owner := None)
    ensures post == map id | id in pre :: FinalRow(matches, rules, groups, owners, pre[id])
  {
  }

  lemma RowsCompose(matches: Matcher, pre: Db, rules: seq<Rule>)
    requires Consistent(pre)
    requires Distinct(AfterAdds(pre, rules).groups.rows) && Distinct(AfterAdds(pre, rules).owners.rows)
    ensures var b := AfterAdds(pre, rules);
      AfterLinking(matches, b, rules).assets == pre.assets.(rows :=
        map id | id in pre.assets.rows ::
          FinalRow(matches, rules, b.groups.rows, b.owners.rows, pre.assets.rows[id]))
  {
    var b := AfterAdds(pre, rules);
    AddFacts(pre, rules);
    LinkingFacts(matches, b, rules);
    RowsFromFacts(matches, rules, b.groups.rows, b.owners.rows,
                  pre.assets.rows, b.assets.rows, AfterLinking(matches, b, rules).assets.rows);
  }

  /** The six stages in order meet the declarative specification. */
  lemma StagesCompose(matches: Matcher, pre: Db, rules: seq<Rule>, post: Db)
    requires Consistent(pre)
    requires Distinct(AfterAdds(pre, rules).groups.rows) && Distinct(AfterAdds(pre, rules).owners.rows)
    requires post == AfterLinking(matches, AfterAdds(pre, rules), rules).(links := post.links)
    requires Distinct(post.groups.rows)
    requires LinksAre(matches, post, OfType(rules, AssetGroupLinkService))
    ensures IsRun(matches, pre, rules, post)
  {
    RowsCompose(matches, pre, rules);
    AddFacts(pre, rules);
    LinkingFacts(matches, AfterAdds(pre, rules), rules);
  }

  /* ---------- facts about the pieces ---------- */

  /** One more rule at the end takes precedence on the names it matches. */
  lemma LastMatchStep(matches: Matcher, source: Source, rules: seq<Rule>, n: nat, name: string)
    requires n < |rules|
    ensures LastMatch(matches, source, rules[..n + 1], name) ==
      if matches(Pattern(source, rules[n]), name) then n else LastMatch(matches, source, rules[..n], name)
  {
  }

  /** Clearing the groups of one type is linking that type by no rule at all. */
  lemma GroupLinkStart(matches: Matcher, db: Db, assettype: string, source: Source)
    requires Distinct(db.groups.rows) && Distinct(db.owners.rows)
    ensures UpdateAssets(matches, db, ClearGroupsOfType(assettype)) ==
      AfterGroupLink(matches, db, assettype, source, [])
  {
  }

  lemma GroupLinkStep(matches: Matcher, db: Db, assettype: string, source: Source, rules: seq<Rule>, n: nat)
    requires Distinct(db.groups.rows) && Distinct(db.owners.rows) && n < |rules|
    ensures UpdateAssets(matches, AfterGroupLink(matches, db, assettype, source, rules[..n]),
                         SetGroup(assettype, Pattern(source, rules[n]), rules[n].destAssetGroupMatch)) ==
      AfterGroupLink(matches, db, assettype, source, rules[..n + 1])
  {
    var d := UpdateAssets(matches, AfterGroupLink(matches, db, assettype, source, rules[..n]),
                          SetGroup(assettype, Pattern(source, rules[n]), rules[n].destAssetGroupMatch));
    var e := AfterGroupLink(matches, db, assettype, source, rules[..n + 1]);
    forall id | id in db.assets.rows ensures d.assets.rows[id] == e.assets.rows[id] {
      LastMatchStep(matches, source, rules, n, db.assets.rows[id].name);
    }
    assert d.assets.rows == e.assets.rows;
  }

  lemma OwnerLinkStart(matches: Matcher, db: Db)
    requires Distinct(db.groups.rows) && Distinct(db.owners.rows)
    ensures UpdateAssets(matches, db, ClearOwners) == AfterOwnerLink(matches, db, [])
  {
  }

  /** The two updates of one ownership rule, on one row. */
  lemma OwnerRowStep(matches: Matcher, db: Db, rules: seq<Rule>, n: nat, a: AssetRow)
    requires Distinct(db.groups.rows) && Distinct(db.owners.rows) && n < |rules|
    ensures var r := rules[n];
      var b := UpdateRow(matches, db, SetHostOwner(r.srcHostMatch, r.destOperator, r.destTeam),
                         OwnerLinked(matches, db.owners.rows, rules[..n], a));
      UpdateRow(matches, db, SetHostTriage(r.srcHostMatch, Override(r)), b) ==
        OwnerLinked(matches, db.owners.rows, rules[..n + 1], a)
  {
    LastMatchStep(matches, Host, rules, n, a.name);
  }

  /** The two updates of one ownership rule. */
  lemma OwnerLinkStep(matches: Matcher, db: Db, rules: seq<Rule>, n: nat)
    requires Distinct(db.groups.rows) && Distinct(db.owners.rows) && n < |rules|
    ensures var r := rules[n];
      var d := UpdateAssets(matches, AfterOwnerLink(matches, db, rules[..n]),
                            SetHostOwner(r.srcHostMatch, r.destOperator, r.destTeam));
      UpdateAssets(matches, d, SetHostTriage(r.srcHostMatch, Override(r))) ==
        AfterOwnerLink(matches, db, rules[..n + 1])
  {
    var r := rules[n];
    var owner, triage :=
      SetHostOwner(r.srcHostMatch, r.destOperator, r.destTeam), SetHostTriage(r.srcHostMatch, Override(r));
    var c := AfterOwnerLink(matches, db, rules[..n]);
    var d := UpdateAssets(matches, c, owner);
    UpdateRowsSame(matches, db, c, owner);
    UpdateRowsSame(matches, db, d, triage);
    OwnerMapStep(matches, db, rules, n, d.assets.rows, UpdateAssets(matches, d, triage).assets.rows);
  }

  /** An update of assets depends on the groups and owners only. */
  lemma UpdateRowsSame(matches: Matcher, db: Db, c: Db, s: Statement)
    requires Distinct(db.groups.rows) && Distinct(db.owners.rows)
    requires c.groups == db.groups && c.owners == db.owners
    ensures UpdateAssets(matches, c, s) == c.(assets := UpdateAssets(matches, c, s).assets)
    ensures UpdateAssets(matches, c, s).assets.next == c.assets.next
    ensures UpdateAssets(matches, c, s).assets.rows ==
      map id | id in c.assets.rows :: UpdateRow(matches, db, s, c.assets.rows[id])
  {
  }

  lemma OwnerMapStep(matches: Matcher, db: Db, rules: seq<Rule>, n: nat,
                     b: map<nat, AssetRow>, c: map<nat, AssetRow>)
    requires Distinct(db.groups.rows) && Distinct(db.owners.rows) && n < |rules|
    requires b.Keys == c.Keys == db.assets.rows.Keys
    requires forall id :: id in b ==>
      b[id] == UpdateRow(matches, db, SetHostOwner(rules[n].srcHostMatch, rules[n].destOperator, rules[n].destTeam),
                         OwnerLinked(matches, db.owners.rows, rules[..n], db.assets.rows[id]))
    requires forall id :: id in b ==>
      c[id] == UpdateRow(matches, db, SetHostTriage(rules[n].srcHostMatch, Override(rules[n])), b[id])
    ensures c ==
      map id | id in db.assets.rows :: OwnerLinked(matches, db.owners.rows, rules[..n + 1], db.assets.rows[id])
  {
    forall id | id in db.assets.rows
      ensures c[id] == OwnerLinked(matches, db.owners.rows, rules[..n + 1], db.assets.rows[id])
    {
      OwnerRowStep(matches, db, rules, n, db.assets.rows[id]);
    }
  }

  /* ---------- how the link table grows ---------- */

  /** The multiplicities while rule n is being applied and the RRAs in `done` have had their
      insert. */
  ghost predicate LinksPartly(matches: Matcher, db: Db, rules: seq<Rule>, n: nat, done: seq<nat>)
    requires Distinct(db.groups.rows) && n < |rules|
  {
    forall row :: multiset(db.links)[row] ==
      LinkCount(matches, db.groups.rows, db.rras.rows, if row.rraid in done then rules[..n + 1] else rules[..n], row)
  }

  lemma LinkingStep(matches: Matcher, groups: map<nat, string>, rules: seq<Rule>, n: nat, service: string,
                    group: Option<nat>)
    requires Distinct(groups) && n < |rules|
    ensures LinkingRules(matches, groups, rules[..n + 1], service, group) ==
      LinkingRules(matches, groups, rules[..n], service, group) +
      if Links(matches, groups, rules[n], service, group) then 1 else 0
  {
    assert rules[..n + 1][..n] == rules[..n];
  }

  lemma LinksStart(matches: Matcher, db: Db)
    requires Distinct(db.groups.rows) && db.links == []
    ensures LinksAre(matches, db, [])
  {
  }

  lemma LinksOpen(matches: Matcher, db: Db, rules: seq<Rule>, n: nat)
    requires Distinct(db.groups.rows) && n < |rules|
    requires LinksAre(matches, db, rules[..n])
    ensures LinksPartly(matches, db, rules, n, [])
  {
  }

  /** One guarded insert. */
  lemma LinksInsert(matches: Matcher, db: Db, rules: seq<Rule>, n: nat, done: seq<nat>, x: nat)
    requires Distinct(db.groups.rows) && n < |rules| && x in db.rras.rows && x !in done
    requires matches(rules[n].destServiceMatch, db.rras.rows[x].name)
    requires LinksPartly(matches, db, rules, n, done)
    ensures LinksPartly(matches, WithLink(db, LinkRow(x, Find(db.groups.rows, rules[n].srcAssetGroupMatch))),
                        rules, n, done + [x])
  {
    var added := LinkRow(x, Find(db.groups.rows, rules[n].srcAssetGroupMatch));
    var e := WithLink(db, added);
    assert added in db.links <==> multiset(db.links)[added] > 0;
    forall row ensures multiset(e.links)[row] ==
      LinkCount(matches, db.groups.rows, db.rras.rows,
                if row.rraid in done + [x] then rules[..n + 1] else rules[..n], row)
    {
      if row.rraid == x {
        LinkingStep(matches, db.groups.rows, rules, n, db.rras.rows[x].name, row.group);
      }
    }
  }

  lemma LinksClose(matches: Matcher, db: Db, rules: seq<Rule>, n: nat, done: seq<nat>)
    requires Distinct(db.groups.rows) && n < |rules|
    requires LinksPartly(matches, db, rules, n, done)
    requires forall x :: x in db.rras.rows && matches(rules[n].destServiceMatch, db.rras.rows[x].name) ==> x in done
    ensures LinksAre(matches, db, rules[..n + 1])
  {
    forall row ensures multiset(db.links)[row] ==
      LinkCount(matches, db.groups.rows, db.rras.rows, rules[..n + 1], row)
    {
      if row.rraid in db.rras.rows {
        LinkingStep(matches, db.groups.rows, rules, n, db.rras.rows[row.rraid].name, row.group);
      }
    }
  }

  lemma {:induction false} WithoutGroupsFacts(links: seq<LinkRow>, ids: set<nat>)
    ensures var r := WithoutGroups(links, ids);
      && multiset(r) <= multiset(links)
      && forall row :: row in r <==> row in links && !(row.group.Some? && row.group.value in ids)
  {
    if links != [] {
      WithoutGroupsFacts(links[..|links| - 1], ids);
      assert links == links[..|links| - 1] + [links[|links| - 1]];
    }
  }

  lemma {:induction false} WithoutGroupsTwice(links: seq<LinkRow>, ids: set<nat>, more: set<nat>)
    ensures WithoutGroups(WithoutGroups(links, ids), more) == WithoutGroups(links, ids + more)
  {
    if links != [] {
      WithoutGroupsTwice(links[..|links| - 1], ids, more);
      var front := WithoutGroups(links[..|links| - 1], ids);
      var r := WithoutGroups(links, ids);
      if r != front {
        assert r[..|r| - 1] == front;
      }
    }
  }

  lemma {:induction false} WithoutNothing(links: seq<LinkRow>)
    ensures WithoutGroups(links, {}) == links
  {
    if links != [] {
      WithoutNothing(links[..|links| - 1]);
    }
  }

  /** Uniqueness of the link table, as multiplicities. */
  lemma LinkKeyCounts(links: seq<LinkRow>)
    ensures LinkKey(links) <==> forall row: LinkRow :: row.group.Some? ==> multiset(links)[row] <= 1
  {
    if LinkKey(links) {
      forall row: LinkRow | row.group.Some? ensures multiset(links)[row] <= 1 {
        OccursOnce(links, row);
      }
    } else {
      var i, j :| 0 <= i < j < |links| && links[i] == links[j] && links[i].group.Some?;
      OccursTwice(links, i, j);
    }
  }

  lemma OccursTwice(links: seq<LinkRow>, i: nat, j: nat)
    requires i < j < |links| && links[i] == links[j]
    ensures multiset(links)[links[i]] >= 2
  {
    DropAt(links, i);
    assert (links[..i] + links[i + 1..])[j - 1] == links[i];
    assert links[i] in multiset(links[..i] + links[i + 1..]);
  }

  lemma {:induction false} OccursOnce(links: seq<LinkRow>, row: LinkRow)
    requires LinkKey(links) && row.group.Some?
    ensures multiset(links)[row] <= 1
  {
    if links != [] {
      var front := links[..|links| - 1];
      OccursOnce(front, row);
      assert links == front + [links[|links| - 1]];
      if links[|links| - 1] == row {
        assert row !in front;
      }
    }
  }
}
