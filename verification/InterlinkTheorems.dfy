/** What a run promises its operators, derived from its specification alone. */
module InterlinkTheorems {
  import opened Sequences
  import opened Results
  import opened Rules
  import opened ServiceLib
  import opened Tables
  import opened Database
  import opened InterlinkSpec

  /* ---------- the final links of assets ---------- */

  /** Rule k is the last of the rules whose pattern matches the name. */
  ghost predicate Decides(matches: Matcher, source: Source, rules: seq<Rule>, name: string, k: nat) {
    k < |rules| && matches(Pattern(source, rules[k]), name) &&
    forall j :: k < j < |rules| ==> !matches(Pattern(source, rules[j]), name)
  }

  /** The last matching rule, if any, names this group. */
  ghost predicate ChoosesGroup(matches: Matcher, source: Source, rules: seq<Rule>, name: string, group: string) {
    exists k: nat :: Decides(matches, source, rules, name, k) && rules[k].destAssetGroupMatch == group
  }

  ghost predicate ChoosesOwner(matches: Matcher, rules: seq<Rule>, name: string, owner: OwnerRow) {
    exists k: nat :: Decides(matches, Host, rules, name, k) &&
      owner == OwnerRow(rules[k].destOperator, rules[k].destTeam)
  }

  lemma GroupForFacts(matches: Matcher, groups: map<nat, string>, source: Source, rules: seq<Rule>, name: string,
                      g: nat)
    requires Distinct(groups)
    ensures GroupFor(matches, groups, source, rules, name) == Some(g) <==>
      g in groups && ChoosesGroup(matches, source, rules, name, groups[g])
  {
  }

  lemma OwnerForFacts(matches: Matcher, owners: map<nat, OwnerRow>, rules: seq<Rule>, name: string, o: nat)
    requires Distinct(owners)
    ensures OwnerFor(matches, owners, rules, name) == Some(o) <==>
      o in owners && ChoosesOwner(matches, rules, name, owners[o])
  {
  }

  /** A hostname or website ends in group g exactly when its last matching rule names g. */
  lemma FinalGroup(matches: Matcher, pre: Db, rules: seq<Rule>, post: Db, id: nat, g: nat)
    requires IsRun(matches, pre, rules, post) && id in pre.assets.rows
    requires pre.assets.rows[id].assettype in {HOSTNAME, WEBSITE}
    ensures id in post.assets.rows
    ensures var a := pre.assets.rows[id];
      post.assets.rows[id].group == Some(g) <==>
        g in post.groups.rows &&
        if a.assettype == HOSTNAME then
          ChoosesGroup(matches, Host, OfType(rules, HostLinkAssetGroup), a.name, post.groups.rows[g])
        else
          ChoosesGroup(matches, Website, OfType(rules, WebsiteLinkAssetGroup), a.name, post.groups.rows[g])
  {
    var a := pre.assets.rows[id];
    GroupForFacts(matches, post.groups.rows, Host, OfType(rules, HostLinkAssetGroup), a.name, g);
    GroupForFacts(matches, post.groups.rows, Website, OfType(rules, WebsiteLinkAssetGroup), a.name, g);
  }

  /** A hostname's owner is that of its last matching ownership rule; nothing else has one. */
  lemma FinalOwner(matches: Matcher, pre: Db, rules: seq<Rule>, post: Db, id: nat, o: nat)
    requires IsRun(matches, pre, rules, post) && id in pre.assets.rows
    ensures id in post.assets.rows
    ensures var a := pre.assets.rows[id];
      post.assets.rows[id].owner == Some(o) <==>
        a.assettype == HOSTNAME && o in post.owners.rows &&
        ChoosesOwner(matches, OfType(rules, HostOwnership), a.name, post.owners.rows[o])
  {
    OwnerForFacts(matches, post.owners.rows, OfType(rules, HostOwnership), pre.assets.rows[id].name, o);
  }

  /** Assets of other types lose their owner and keep group and override, unless the group
      itself is gone, which happens exactly when its name is no longer declared. */
  lemma OtherAssets(matches: Matcher, pre: Db, rules: seq<Rule>, post: Db, id: nat)
    requires Consistent(pre) && IsRun(matches, pre, rules, post) && id in pre.assets.rows
    requires pre.assets.rows[id].assettype !in {HOSTNAME, WEBSITE}
    ensures var a, b := pre.assets.rows[id], post.assets.rows[id];
      && b == a.(owner := None, group := b.group)
      && (a.group.None? ==> b.group.None?)
      && (a.group.Some? ==>
           b.group == if pre.groups.rows[a.group.value] in GroupNames(OfType(rules, AssetGroupAdd))
                      then a.group else None)
  {
    ReconcileFacts(pre.groups, GroupNames(OfType(rules, AssetGroupAdd)));
  }

  /* ---------- the final link table ---------- */

  lemma {:induction false} SomeRuleLinks(matches: Matcher, groups: map<nat, string>, rules: seq<Rule>,
                                         service: string, group: Option<nat>)
    requires Distinct(groups)
    ensures LinkingRules(matches, groups, rules, service, group) > 0 <==>
      exists i :: 0 <= i < |rules| && Links(matches, groups, rules[i], service, group)
  {
    if rules != [] {
      var front := rules[..|rules| - 1];
      SomeRuleLinks(matches, groups, front, service, group);
      assert forall i :: 0 <= i < |front| ==> front[i] == rules[i];
    }
  }

  /** Some rule matches the service and names the group. */
  ghost predicate Supports(matches: Matcher, rules: seq<Rule>, service: string, group: string) {
    exists i :: 0 <= i < |rules| && matches(rules[i].destServiceMatch, service) && rules[i].srcAssetGroupMatch == group
  }

  lemma SupportsIsLinking(matches: Matcher, groups: map<nat, string>, rules: seq<Rule>, service: string, g: nat)
    requires Distinct(groups)
    ensures LinkingRules(matches, groups, rules, service, Some(g)) > 0 <==>
      g in groups && Supports(matches, rules, service, groups[g])
  {
  }

  /** The rows with a group are, without duplicates, the pairs that some rule links. */
  lemma FinalLinks(matches: Matcher, pre: Db, rules: seq<Rule>, post: Db, rraid: nat, g: nat)
    requires IsRun(matches, pre, rules, post)
    ensures multiset(post.links)[LinkRow(rraid, Some(g))] <= 1
    ensures LinkRow(rraid, Some(g)) in post.links <==>
      rraid in pre.rras.rows && g in post.groups.rows &&
      Supports(matches, OfType(rules, AssetGroupLinkService), pre.rras.rows[rraid].name, post.groups.rows[g])
  {
    var row := LinkRow(rraid, Some(g));
    assert row in post.links <==> multiset(post.links)[row] > 0;
    if rraid in pre.rras.rows {
      SupportsIsLinking(matches, post.groups.rows, OfType(rules, AssetGroupLinkService), pre.rras.rows[rraid].name, g);
    }
  }

  /** A rule that matches an RRA and names an undeclared group. */
  ghost predicate Dangling(matches: Matcher, groups: map<nat, string>, r: Rule, service: string) {
    matches(r.destServiceMatch, service) && forall g :: g in groups ==> groups[g] != r.srcAssetGroupMatch
  }

  ghost function DanglingRules(matches: Matcher, groups: map<nat, string>, rules: seq<Rule>, service: string): nat {
    if rules == [] then 0
    else
      DanglingRules(matches, groups, rules[..|rules| - 1], service) +
      if Dangling(matches, groups, rules[|rules| - 1], service) then 1 else 0
  }

  lemma {:induction false} DanglingIsNull(matches: Matcher, groups: map<nat, string>, rules: seq<Rule>, service: string)
    requires Distinct(groups)
    ensures DanglingRules(matches, groups, rules, service) == LinkingRules(matches, groups, rules, service, None)
  {
    if rules != [] {
      DanglingIsNull(matches, groups, rules[..|rules| - 1], service);
      var last := rules[|rules| - 1];
      var f := Find(groups, last.srcAssetGroupMatch);
      assert f.Some? ==> f == Some(f.value);
    }
  }

  /** There is one NULL row for each rule that matches the RRA and names an undeclared group,
      hence none for it exactly when every rule matching it names a declared group. */
  lemma FinalNullLinks(matches: Matcher, pre: Db, rules: seq<Rule>, post: Db, rraid: nat)
    requires IsRun(matches, pre, rules, post) && rraid in pre.rras.rows
    ensures var links, service := OfType(rules, AssetGroupLinkService), pre.rras.rows[rraid].name;
      && multiset(post.links)[LinkRow(rraid, None)] == DanglingRules(matches, post.groups.rows, links, service)
      && (LinkRow(rraid, None) in post.links <==>
           exists i :: 0 <= i < |links| && Dangling(matches, post.groups.rows, links[i], service))
  {
    var links, service := OfType(rules, AssetGroupLinkService), pre.rras.rows[rraid].name;
    var row := LinkRow(rraid, None);
    var groups := post.groups.rows;
    DanglingIsNull(matches, groups, links, service);
    SomeRuleLinks(matches, groups, links, service, None);
    assert row in post.links <==> multiset(post.links)[row] > 0;
    forall i | 0 <= i < |links|
      ensures Links(matches, groups, links[i], service, None) <==> Dangling(matches, groups, links[i], service)
    {
      var f := Find(groups, links[i].srcAssetGroupMatch);
      assert f.Some? ==> f == Some(f.value);
    }
  }

  /** One RRA and nothing else. */
  function OneRRA(row: RRARow): Db {
    Db(Table(map[], 0), Table(map[], 0), Table(map[], 0), Table(map[0 := row], 1), Table(map[], 0), [], [])
  }

  /** A concrete case: one service-link rule that matches the only RRA and names a group that
      no rule declares leaves one NULL row. */
  lemma DanglingLink(matches: Matcher, row: RRARow, r: Rule)
    requires r.ruletype == AssetGroupLinkService && matches(r.destServiceMatch, row.name)
    ensures IsRun(matches, OneRRA(row), [r], OneRRA(row).(links := [LinkRow(0, None)]))
  {
    var post := OneRRA(row).(links := [LinkRow(0, None)]);
    var groups := post.groups.rows;
    forall t: RuleType ensures OfType([r], t) == if t == r.ruletype then [r] else [] {
      assert [r][..0] == [];
    }
    assert [r][..0] == [];
    match Find(groups, r.srcAssetGroupMatch) {
      case Some(id) => assert false;
      case None =>
    }
    forall g ensures LinkingRules(matches, groups, [r], row.name, g) == if g.None? then 1 else 0 {
      assert LinkingRules(matches, groups, [], row.name, g) == 0;
    }
    assert LinksAre(matches, post, [r]);
  }

  /* ---------- reconciliation ---------- */

  /** After a run the groups are exactly the declared ones; surviving groups keep their ids
      and new ids come from the unused part of the sequence. */
  lemma GroupsReconciled(matches: Matcher, pre: Db, rules: seq<Rule>, post: Db)
    requires Consistent(pre) && IsRun(matches, pre, rules, post)
    ensures forall name :: name in GroupNames(OfType(rules, AssetGroupAdd)) <==> name in post.groups.rows.Values
    ensures forall g :: g in pre.groups.rows && g in post.groups.rows ==> post.groups.rows[g] == pre.groups.rows[g]
    ensures forall g :: g in pre.groups.rows && g !in post.groups.rows ==>
      pre.groups.rows[g] !in GroupNames(OfType(rules, AssetGroupAdd))
    ensures forall g :: g in post.groups.rows && g !in pre.groups.rows ==> g >= pre.groups.next
  {
    ReconcileFacts(pre.groups, GroupNames(OfType(rules, AssetGroupAdd)));
  }

  /** The same for owners. */
  lemma OwnersReconciled(matches: Matcher, pre: Db, rules: seq<Rule>, post: Db)
    requires Consistent(pre) && IsRun(matches, pre, rules, post)
    ensures forall o :: o in OwnerRows(OfType(rules, OwnerAdd)) <==> o in post.owners.rows.Values
    ensures forall o :: o in pre.owners.rows && o in post.owners.rows ==> post.owners.rows[o] == pre.owners.rows[o]
    ensures forall o :: o in pre.owners.rows && o !in post.owners.rows ==>
      pre.owners.rows[o] !in OwnerRows(OfType(rules, OwnerAdd))
    ensures forall o :: o in post.owners.rows && o !in pre.owners.rows ==> o >= pre.owners.next
  {
    ReconcileFacts(pre.owners, OwnerRows(OfType(rules, OwnerAdd)));
  }

  /* ---------- the specification determines the result, and keeps the schema ---------- */

  /** Equal tables, the link table up to the order of its rows. */
  ghost predicate SameTables(a: Db, b: Db) {
    a.(links := []) == b.(links := []) && multiset(a.links) == multiset(b.links)
  }

  /** The result does not depend on the order in which the server returns rows. */
  lemma RunDeterministic(matches: Matcher, pre: Db, rules: seq<Rule>, a: Db, b: Db)
    requires IsRun(matches, pre, rules, a) && IsRun(matches, pre, rules, b)
    ensures SameTables(a, b)
  {
  }

  lemma RunKeepsSchema(matches: Matcher, pre: Db, rules: seq<Rule>, post: Db)
    requires Consistent(pre) && IsRun(matches, pre, rules, post)
    ensures Consistent(post)
  {
    ReconcileFacts(pre.groups, GroupNames(OfType(rules, AssetGroupAdd)));
    ReconcileFacts(pre.owners, OwnerRows(OfType(rules, OwnerAdd)));
    FinalRowsRefer(matches, pre, rules, post);
    LinkKeyCounts(post.links);
    forall i | 0 <= i < |post.links|
      ensures post.links[i].rraid in post.rras.rows
      ensures post.links[i].group.Some? ==> post.links[i].group.value in post.groups.rows
    {
      var row := post.links[i];
      assert row in multiset(post.links);
      if row.group.Some? {
        FinalLinks(matches, pre, rules, post, row.rraid, row.group.value);
      }
    }
  }

  lemma FinalRowFacts(matches: Matcher, rules: seq<Rule>, groups: map<nat, string>, owners: map<nat, OwnerRow>,
                      a: AssetRow)
    requires Distinct(groups) && Distinct(owners)
    ensures var b := FinalRow(matches, rules, groups, owners, a);
      && b.assettype == a.assettype && b.name == a.name && b.zone == a.zone
      && (b.group.Some? ==> b.group.value in groups)
      && (b.owner.Some? ==> b.owner.value in owners)
  {
  }

  lemma FinalRowsRefer(matches: Matcher, pre: Db, rules: seq<Rule>, post: Db)
    requires Consistent(pre) && IsRun(matches, pre, rules, post)
    ensures AssetKey(post.assets.rows) && Serial(post.assets)
    ensures AssetRefs(post.assets.rows, post.groups.rows, post.owners.rows)
  {
    forall id | id in pre.assets.rows
      ensures var a, b := pre.assets.rows[id], post.assets.rows[id];
        && b.assettype == a.assettype && b.name == a.name && b.zone == a.zone
        && (b.group.Some? ==> b.group.value in post.groups.rows)
        && (b.owner.Some? ==> b.owner.value in post.owners.rows)
    {
      FinalRowFacts(matches, rules, post.groups.rows, post.owners.rows, pre.assets.rows[id]);
    }
    RekeyedAssets(pre.assets.rows, post.assets.rows);
  }

  lemma RekeyedAssets(a: map<nat, AssetRow>, b: map<nat, AssetRow>)
    requires AssetKey(a) && a.Keys == b.Keys
    requires forall id :: id in a ==>
      b[id].assettype == a[id].assettype && b[id].name == a[id].name && b[id].zone == a[id].zone
    ensures AssetKey(b)
  {
  }

  /* ---------- idempotence ---------- */

  lemma FinalRowTwice(matches: Matcher, rules: seq<Rule>, groups: map<nat, string>, owners: map<nat, OwnerRow>,
                      a: AssetRow)
    requires Distinct(groups) && Distinct(owners)
    ensures var b := FinalRow(matches, rules, groups, owners, a);
      FinalRow(matches, rules, groups, owners, b) == b
  {
  }

  /** Running the same rules again changes no table, ids and NULL rows included. */
  lemma RunIdempotent(matches: Matcher, pre: Db, rules: seq<Rule>, once: Db, twice: Db)
    requires Consistent(pre)
    requires IsRun(matches, pre, rules, once) && IsRun(matches, once, rules, twice)
    ensures SameTables(once, twice)
  {
    ReconcileTwice(pre.groups, GroupNames(OfType(rules, AssetGroupAdd)));
    ReconcileTwice(pre.owners, OwnerRows(OfType(rules, OwnerAdd)));
    forall id | id in once.assets.rows ensures twice.assets.rows[id] == once.assets.rows[id] {
      FinalRowTwice(matches, rules, once.groups.rows, once.owners.rows, pre.assets.rows[id]);
    }
    assert twice.assets.rows == once.assets.rows;
    forall row ensures multiset(once.links)[row] == multiset(twice.links)[row] {
    }
  }

  /* ---------- which rule files are equivalent ---------- */

  lemma SameFinalRow(matches: Matcher, rules: seq<Rule>, rules': seq<Rule>, groups: map<nat, string>,
                     owners: map<nat, OwnerRow>, a: AssetRow)
    requires Distinct(groups) && Distinct(owners)
    requires OfType(rules, HostLinkAssetGroup) == OfType(rules', HostLinkAssetGroup)
    requires OfType(rules, HostOwnership) == OfType(rules', HostOwnership)
    requires OfType(rules, WebsiteLinkAssetGroup) == OfType(rules', WebsiteLinkAssetGroup)
    ensures FinalRow(matches, rules, groups, owners, a) == FinalRow(matches, rules', groups, owners, a)
  {
  }

  /** A run sees the rules only through the subsequences of the six executed types, so it
      does not matter how the types are interleaved, nor what websites are added. */
  lemma InterleavingIrrelevant(matches: Matcher, pre: Db, rules: seq<Rule>, rules': seq<Rule>, post: Db)
    requires forall t: RuleType :: t != WebsiteAdd ==> OfType(rules, t) == OfType(rules', t)
    requires IsRun(matches, pre, rules, post)
    ensures IsRun(matches, pre, rules', post)
  {
    forall id | id in pre.assets.rows
      ensures FinalRow(matches, rules, post.groups.rows, post.owners.rows, pre.assets.rows[id]) ==
        FinalRow(matches, rules', post.groups.rows, post.owners.rows, pre.assets.rows[id])
    {
      SameFinalRow(matches, rules, rules', post.groups.rows, post.owners.rows, pre.assets.rows[id]);
    }
  }

  lemma WebsiteAddIgnored(matches: Matcher, pre: Db, a: seq<Rule>, r: Rule, b: seq<Rule>, post: Db)
    requires r.ruletype == WebsiteAdd
    ensures IsRun(matches, pre, a + [r] + b, post) <==> IsRun(matches, pre, a + b, post)
  {
    forall t: RuleType | t != WebsiteAdd ensures OfType(a + [r] + b, t) == OfType(a + b, t) {
      OfTypeConcat(a + [r], b, t);
      OfTypeConcat(a, [r], t);
      OfTypeConcat(a, b, t);
    }
    if IsRun(matches, pre, a + [r] + b, post) {
      InterleavingIrrelevant(matches, pre, a + [r] + b, a + b, post);
    }
    if IsRun(matches, pre, a + b, post) {
      InterleavingIrrelevant(matches, pre, a + b, a + [r] + b, post);
    }
  }

  lemma {:induction false} LinkingConcat(matches: Matcher, groups: map<nat, string>, a: seq<Rule>, b: seq<Rule>,
                                         service: string, group: Option<nat>)
    requires Distinct(groups)
    ensures LinkingRules(matches, groups, a + b, service, group) ==
      LinkingRules(matches, groups, a, service, group) + LinkingRules(matches, groups, b, service, group)
  {
    if b == [] {
      assert a + b == a;
    } else {
      LinkingConcat(matches, groups, a, b[..|b| - 1], service, group);
      assert (a + b)[..|a + b| - 1] == a + b[..|b| - 1];
    }
  }

  lemma LinkingDrop(matches: Matcher, groups: map<nat, string>, b: seq<Rule>, k: nat, service: string,
                    group: Option<nat>)
    requires Distinct(groups) && k < |b|
    ensures LinkingRules(matches, groups, b, service, group) ==
      LinkingRules(matches, groups, b[..k] + b[k + 1..], service, group) +
      if Links(matches, groups, b[k], service, group) then 1 else 0
  {
    LinkingConcat(matches, groups, b[..k], b[k + 1..], service, group);
    LinkingConcat(matches, groups, b[..k + 1], b[k + 1..], service, group);
    assert b[..k + 1][..k] == b[..k];
    assert b == b[..k + 1] + b[k + 1..];
  }

  /** Counting the linking rules does not depend on their order. */
  lemma {:induction false} LinkingPermutation(matches: Matcher, groups: map<nat, string>, a: seq<Rule>, b: seq<Rule>,
                                              service: string, group: Option<nat>)
    requires Distinct(groups) && multiset(a) == multiset(b)
    ensures LinkingRules(matches, groups, a, service, group) == LinkingRules(matches, groups, b, service, group)
  {
    if a == [] {
      SameMultiset(a, b);
    } else {
      var k := TakeFirst(a, b);
      LinkingPermutation(matches, groups, a[1..], b[..k] + b[k + 1..], service, group);
      LinkingDrop(matches, groups, a, 0, service, group);
      LinkingDrop(matches, groups, b, k, service, group);
      assert a[..0] + a[1..] == a[1..];
    }
  }

  /** Rule files that differ only in the order of their service-link rules give the same
      tables, link rows included. */
  lemma ServiceLinksPermute(matches: Matcher, pre: Db, rules: seq<Rule>, rules': seq<Rule>, a: Db, b: Db)
    requires forall t: RuleType :: t != WebsiteAdd && t != AssetGroupLinkService ==>
      OfType(rules, t) == OfType(rules', t)
    requires multiset(OfType(rules, AssetGroupLinkService)) == multiset(OfType(rules', AssetGroupLinkService))
    requires IsRun(matches, pre, rules, a) && IsRun(matches, pre, rules', b)
    ensures SameTables(a, b)
  {
    var links, links' := OfType(rules, AssetGroupLinkService), OfType(rules', AssetGroupLinkService);
    assert a.groups == b.groups && a.owners == b.owners;
    forall id | id in pre.assets.rows ensures a.assets.rows[id] == b.assets.rows[id] {
      SameFinalRow(matches, rules, rules', a.groups.rows, a.owners.rows, pre.assets.rows[id]);
    }
    assert a.assets.rows == b.assets.rows;
    forall row ensures multiset(a.links)[row] == multiset(b.links)[row] {
      if row.rraid in pre.rras.rows {
        LinkingPermutation(matches, a.groups.rows, links, links', pre.rras.rows[row.rraid].name, row.group);
      }
    }
  }

  /** The same counts when ids are renamed: only names matter. */
  lemma {:induction false} LinkingRenamed(matches: Matcher, groups: map<nat, string>, group: Option<nat>,
                                          groups': map<nat, string>, group': Option<nat>,
                                          rules: seq<Rule>, service: string)
    requires Distinct(groups) && Distinct(groups')
    requires forall name :: Find(groups, name) == group <==> Find(groups', name) == group'
    ensures LinkingRules(matches, groups, rules, service, group) ==
      LinkingRules(matches, groups', rules, service, group')
  {
    if rules != [] {
      LinkingRenamed(matches, groups, group, groups', group', rules[..|rules| - 1], service);
      assert Find(groups, rules[|rules| - 1].srcAssetGroupMatch) == group <==>
        Find(groups', rules[|rules| - 1].srcAssetGroupMatch) == group';
    }
  }

  /** Two rule files that declare the same groups and owners, whatever the order, agree on
      the order of the linking rules of assets, and have the same service-link rules,
      whatever the order. */
  ghost predicate Equivalent(rules: seq<Rule>, rules': seq<Rule>) {
    && (forall n :: n in GroupNames(OfType(rules, AssetGroupAdd)) <==> n in GroupNames(OfType(rules', AssetGroupAdd)))
    && (forall o :: o in OwnerRows(OfType(rules, OwnerAdd)) <==> o in OwnerRows(OfType(rules', OwnerAdd)))
    && OfType(rules, HostLinkAssetGroup) == OfType(rules', HostLinkAssetGroup)
    && OfType(rules, HostOwnership) == OfType(rules', HostOwnership)
    && OfType(rules, WebsiteLinkAssetGroup) == OfType(rules', WebsiteLinkAssetGroup)
    && multiset(OfType(rules, AssetGroupLinkService)) == multiset(OfType(rules', AssetGroupLinkService))
  }

  /** What an optional reference denotes. */
  function Denotes<V>(rows: map<nat, V>, id: Option<nat>): Option<V> {
    if id.Some? && id.value in rows then Some(rows[id.value]) else None
  }

  lemma DenotesFind<V>(rows: map<nat, V>, rows': map<nat, V>, v: V)
    requires Distinct(rows) && Distinct(rows') && rows.Values == rows'.Values
    ensures Denotes(rows, Find(rows, v)) == Denotes(rows', Find(rows', v))
    ensures Find(rows, v).None? <==> Find(rows', v).None?
  {
    var f, f' := Find(rows, v), Find(rows', v);
    assert f.Some? ==> f == Some(f.value);
    assert f'.Some? ==> f' == Some(f'.value);
    assert v in rows.Values <==> exists id :: id in rows && rows[id] == v;
    assert v in rows'.Values <==> exists id :: id in rows' && rows'[id] == v;
  }

  /** Equivalent rule files give the same assets and the same links up to a permutation of
      the ids of newly added groups and owners among themselves. */
  lemma EquivalentRuns(matches: Matcher, pre: Db, rules: seq<Rule>, rules': seq<Rule>, a: Db, b: Db)
    requires Consistent(pre) && Equivalent(rules, rules')
    requires IsRun(matches, pre, rules, a) && IsRun(matches, pre, rules', b)
    ensures a.groups.rows.Values == b.groups.rows.Values && a.owners.rows.Values == b.owners.rows.Values
    ensures a.groups.rows.Keys == b.groups.rows.Keys && a.groups.next == b.groups.next
    ensures a.owners.rows.Keys == b.owners.rows.Keys && a.owners.next == b.owners.next
    ensures forall g :: g in pre.groups.rows && g in a.groups.rows ==> a.groups.rows[g] == b.groups.rows[g]
    ensures forall o :: o in pre.owners.rows && o in a.owners.rows ==> a.owners.rows[o] == b.owners.rows[o]
    ensures a.assets.rows.Keys == b.assets.rows.Keys
    ensures forall id :: id in a.assets.rows ==>
      var x, y := a.assets.rows[id], b.assets.rows[id];
      && y == x.(group := y.group, owner := y.owner)
      && Denotes(a.groups.rows, x.group) == Denotes(b.groups.rows, y.group)
      && Denotes(a.owners.rows, x.owner) == Denotes(b.owners.rows, y.owner)
    ensures forall r :: multiset(a.links)[LinkRow(r, None)] == multiset(b.links)[LinkRow(r, None)]
    ensures forall r, g, g' :: g in a.groups.rows && g' in b.groups.rows && a.groups.rows[g] == b.groups.rows[g'] ==>
      multiset(a.links)[LinkRow(r, Some(g))] == multiset(b.links)[LinkRow(r, Some(g'))]
  {
    ReconcileOrder(pre.groups, GroupNames(OfType(rules, AssetGroupAdd)), GroupNames(OfType(rules', AssetGroupAdd)));
    ReconcileOrder(pre.owners, OwnerRows(OfType(rules, OwnerAdd)), OwnerRows(OfType(rules', OwnerAdd)));
    ReconcileSameIds(pre.groups, GroupNames(OfType(rules, AssetGroupAdd)), GroupNames(OfType(rules', AssetGroupAdd)));
    ReconcileSameIds(pre.owners, OwnerRows(OfType(rules, OwnerAdd)), OwnerRows(OfType(rules', OwnerAdd)));
    forall id | id in pre.assets.rows
      ensures var x, y := a.assets.rows[id], b.assets.rows[id];
        && y == x.(group := y.group, owner := y.owner)
        && Denotes(a.groups.rows, x.group) == Denotes(b.groups.rows, y.group)
        && Denotes(a.owners.rows, x.owner) == Denotes(b.owners.rows, y.owner)
    {
      EquivalentRow(matches, pre, rules, rules', a, b, id);
    }
    forall r, g: Option<nat>, g': Option<nat> |
      (g.None? && g'.None?) ||
      (g.Some? && g'.Some? && g.value in a.groups.rows && g'.value in b.groups.rows &&
       a.groups.rows[g.value] == b.groups.rows[g'.value])
      ensures multiset(a.links)[LinkRow(r, g)] == multiset(b.links)[LinkRow(r, g')]
    {
      EquivalentLinks(matches, pre, rules, rules', a, b, r, g, g');
    }
  }

  lemma EquivalentGroup(matches: Matcher, groups: map<nat, string>, groups': map<nat, string>, source: Source,
                        rules: seq<Rule>, name: string)
    requires Distinct(groups) && Distinct(groups') && groups.Values == groups'.Values
    ensures Denotes(groups, GroupFor(matches, groups, source, rules, name)) ==
      Denotes(groups', GroupFor(matches, groups', source, rules, name))
  {
    var k := LastMatch(matches, source, rules, name);
    if k >= 0 {
      DenotesFind(groups, groups', rules[k].destAssetGroupMatch);
    }
  }

  lemma EquivalentOwner(matches: Matcher, owners: map<nat, OwnerRow>, owners': map<nat, OwnerRow>,
                        rules: seq<Rule>, name: string)
    requires Distinct(owners) && Distinct(owners') && owners.Values == owners'.Values
    ensures Denotes(owners, OwnerFor(matches, owners, rules, name)) ==
      Denotes(owners', OwnerFor(matches, owners', rules, name))
  {
    var k := LastMatch(matches, Host, rules, name);
    if k >= 0 {
      DenotesFind(owners, owners', OwnerRow(rules[k].destOperator, rules[k].destTeam));
    }
  }

  lemma EquivalentRow(matches: Matcher, pre: Db, rules: seq<Rule>, rules': seq<Rule>, a: Db, b: Db, id: nat)
    requires Consistent(pre) && Equivalent(rules, rules') && id in pre.assets.rows
    requires IsRun(matches, pre, rules, a) && IsRun(matches, pre, rules', b)
    requires a.groups.rows.Values == b.groups.rows.Values && a.owners.rows.Values == b.owners.rows.Values
    requires forall g :: g in pre.groups.rows ==> (g in a.groups.rows <==> g in b.groups.rows)
    requires forall g :: g in pre.groups.rows && g in a.groups.rows && g in b.groups.rows ==>
      a.groups.rows[g] == b.groups.rows[g]
    ensures var x, y := a.assets.rows[id], b.assets.rows[id];
      && y == x.(group := y.group, owner := y.owner)
      && Denotes(a.groups.rows, x.group) == Denotes(b.groups.rows, y.group)
      && Denotes(a.owners.rows, x.owner) == Denotes(b.owners.rows, y.owner)
  {
    var row := pre.assets.rows[id];
    if row.assettype == HOSTNAME {
      EquivalentGroup(matches, a.groups.rows, b.groups.rows, Host, OfType(rules, HostLinkAssetGroup), row.name);
      EquivalentOwner(matches, a.owners.rows, b.owners.rows, OfType(rules, HostOwnership), row.name);
    } else if row.assettype == WEBSITE {
      EquivalentGroup(matches, a.groups.rows, b.groups.rows, Website, OfType(rules, WebsiteLinkAssetGroup), row.name);
    }
  }

  lemma EquivalentLinks(matches: Matcher, pre: Db, rules: seq<Rule>, rules': seq<Rule>, a: Db, b: Db,
                        r: nat, g: Option<nat>, g': Option<nat>)
    requires Equivalent(rules, rules')
    requires IsRun(matches, pre, rules, a) && IsRun(matches, pre, rules', b)
    requires a.groups.rows.Values == b.groups.rows.Values
    requires (g.None? && g'.None?) ||
      (g.Some? && g'.Some? && g.value in a.groups.rows && g'.value in b.groups.rows &&
       a.groups.rows[g.value] == b.groups.rows[g'.value])
    ensures multiset(a.links)[LinkRow(r, g)] == multiset(b.links)[LinkRow(r, g')]
  {
    var links, links' := OfType(rules, AssetGroupLinkService), OfType(rules', AssetGroupLinkService);
    if r in pre.rras.rows {
      var service := pre.rras.rows[r].name;
      forall name ensures Find(a.groups.rows, name) == g <==> Find(b.groups.rows, name) == g' {
        DenotesFind(a.groups.rows, b.groups.rows, name);
      }
      LinkingRenamed(matches, a.groups.rows, g, b.groups.rows, g', links, service);
      LinkingPermutation(matches, b.groups.rows, links, links', service, g');
    }
  }
}
