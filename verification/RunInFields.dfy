/** What a run makes of every table, said in the fields of rows and rules alone: which rule of
    the file decides each asset, which groups, owners and links there are. */
module RunInFields {
  import opened Results
  import opened Rules
  import opened ServiceLib
  import opened Tables
  import opened Database
  import opened InterlinkSpec
  import opened InterlinkTheorems

  /* ---------- selecting rules by type ---------- */

  /** The selection has each rule of the type as often as the file, and no other. */
  lemma {:induction false} OfTypeCounts(rules: seq<Rule>, t: RuleType, r: Rule)
    ensures multiset(OfType(rules, t))[r] == if r.ruletype == t then multiset(rules)[r] else 0
  {
    if rules != [] {
      var front, last := rules[..|rules| - 1], rules[|rules| - 1];
      OfTypeCounts(front, t, r);
      assert rules == front + [last];
    }
  }

  lemma OfTypeHas(rules: seq<Rule>, t: RuleType, r: Rule)
    ensures r in OfType(rules, t) <==> r in rules && r.ruletype == t
  {
    OfTypeCounts(rules, t, r);
    assert r in OfType(rules, t) <==> r in multiset(OfType(rules, t));
    assert r in rules <==> r in multiset(rules);
  }

  /** Rule i of the selection has a place in the file; what comes later in the file comes
      later in the selection. */
  lemma {:induction false} Place(rules: seq<Rule>, t: RuleType, i: nat) returns (k: nat)
    requires i < |OfType(rules, t)|
    ensures k < |rules| && rules[k] == OfType(rules, t)[i] && rules[k].ruletype == t
    ensures forall j :: k < j < |rules| && rules[j].ruletype == t ==> rules[j] in OfType(rules, t)[i + 1..]
  {
    var n := |rules| - 1;
    var front, own := rules[..n], OfType(rules, t);
    if rules[n].ruletype == t && i == |own| - 1 {
      k := n;
    } else {
      k := Place(front, t, i);
      var later := OfType(front, t)[i + 1..];
      assert own[i + 1..] == if rules[n].ruletype == t then later + [rules[n]] else later;
      forall j | k < j < |rules| && rules[j].ruletype == t ensures rules[j] in own[i + 1..] {
        if j < n {
          assert front[j] in later;
        }
      }
    }
  }

  /** Rule k decides: it is the last of its type in the file with property p. */
  ghost predicate IsLast(p: Rule -> bool, rules: seq<Rule>, t: RuleType, k: nat) {
    && k < |rules| && rules[k].ruletype == t && p(rules[k])
    && forall j :: k < j < |rules| && rules[j].ruletype == t ==> !p(rules[j])
  }

  lemma LastPlace(p: Rule -> bool, rules: seq<Rule>, t: RuleType, i: nat) returns (k: nat)
    requires var own := OfType(rules, t);
      i < |own| && p(own[i]) && forall j :: i < j < |own| ==> !p(own[j])
    ensures IsLast(p, rules, t, k) && rules[k] == OfType(rules, t)[i]
  {
    var own := OfType(rules, t);
    k := Place(rules, t, i);
    forall j | k < j < |rules| && rules[j].ruletype == t ensures !p(rules[j]) {
      var m :| 0 <= m < |own[i + 1..]| && own[i + 1..][m] == rules[j];
      assert own[i + 1 + m] == rules[j];
    }
  }

  lemma OneLast(p: Rule -> bool, rules: seq<Rule>, t: RuleType, j: nat, k: nat)
    requires IsLast(p, rules, t, j) && IsLast(p, rules, t, k)
    ensures j == k
  {
  }

  /** The rule in force for a name, as the linking stages find it: none exactly when no rule
      of the type has the property, and otherwise the deciding one. */
  lemma InForce(matches: Matcher, source: Source, p: Rule -> bool, rules: seq<Rule>, t: RuleType, name: string)
    returns (k: nat)
    requires forall r :: p(r) <==> matches(Pattern(source, r), name)
    ensures var own := OfType(rules, t);
      var i := LastMatch(matches, source, own, name);
      && (i < 0 ==> forall j :: 0 <= j < |rules| && rules[j].ruletype == t ==> !p(rules[j]))
      && (i >= 0 ==> IsLast(p, rules, t, k) && rules[k] == own[i])
  {
    var own := OfType(rules, t);
    var i := LastMatch(matches, source, own, name);
    k := 0;
    if i >= 0 {
      k := LastPlace(p, rules, t, i);
    } else {
      forall j | 0 <= j < |rules| && rules[j].ruletype == t ensures !p(rules[j]) {
        OfTypeHas(rules, t, rules[j]);
        var m :| 0 <= m < |own| && own[m] == rules[j];
      }
    }
  }

  /* ---------- assets ---------- */

  /** A hostname ends in group g exactly when the last host rule of the file whose host
      pattern matches it names g. */
  lemma HostnameGroup(matches: Matcher, pre: Db, rules: seq<Rule>, post: Db, id: nat, g: nat)
    requires IsRun(matches, pre, rules, post)
    requires id in pre.assets.rows && pre.assets.rows[id].assettype == "hostname"
    ensures id in post.assets.rows
    ensures var name := pre.assets.rows[id].name;
      post.assets.rows[id].group == Some(g) <==>
        g in post.groups.rows &&
        exists k :: 0 <= k < |rules| && rules[k].ruletype == HostLinkAssetGroup
          && matches(rules[k].srcHostMatch, name) && rules[k].destAssetGroupMatch == post.groups.rows[g]
          && forall j :: k < j < |rules| && rules[j].ruletype == HostLinkAssetGroup ==>
               !matches(rules[j].srcHostMatch, name)
  {
    var name := pre.assets.rows[id].name;
    var p := (r: Rule) => matches(r.srcHostMatch, name);
    var k := InForce(matches, Host, p, rules, HostLinkAssetGroup, name);
    if j: nat :| j < |rules| && IsLast(p, rules, HostLinkAssetGroup, j) {
      assert p(rules[j]);
      OneLast(p, rules, HostLinkAssetGroup, j, k);
    }
  }

  /** The same for a website, with the website rules and their website pattern. */
  lemma WebsiteGroup(matches: Matcher, pre: Db, rules: seq<Rule>, post: Db, id: nat, g: nat)
    requires IsRun(matches, pre, rules, post)
    requires id in pre.assets.rows && pre.assets.rows[id].assettype == "website"
    ensures id in post.assets.rows
    ensures var name := pre.assets.rows[id].name;
      post.assets.rows[id].group == Some(g) <==>
        g in post.groups.rows &&
        exists k :: 0 <= k < |rules| && rules[k].ruletype == WebsiteLinkAssetGroup
          && matches(rules[k].srcWebsiteMatch, name) && rules[k].destAssetGroupMatch == post.groups.rows[g]
          && forall j :: k < j < |rules| && rules[j].ruletype == WebsiteLinkAssetGroup ==>
               !matches(rules[j].srcWebsiteMatch, name)
  {
    var name := pre.assets.rows[id].name;
    var p := (r: Rule) => matches(r.srcWebsiteMatch, name);
    var k := InForce(matches, Website, p, rules, WebsiteLinkAssetGroup, name);
    if j: nat :| j < |rules| && IsLast(p, rules, WebsiteLinkAssetGroup, j) {
      assert p(rules[j]);
      OneLast(p, rules, WebsiteLinkAssetGroup, j, k);
    }
  }

  /** A hostname ends with owner o exactly when the last ownership rule of the file whose host
      pattern matches it names o's operator and team; no other asset has an owner. */
  lemma HostnameOwner(matches: Matcher, pre: Db, rules: seq<Rule>, post: Db, id: nat, o: nat)
    requires IsRun(matches, pre, rules, post) && id in pre.assets.rows
    ensures id in post.assets.rows
    ensures var name := pre.assets.rows[id].name;
      post.assets.rows[id].owner == Some(o) <==>
        pre.assets.rows[id].assettype == "hostname" && o in post.owners.rows &&
        exists k :: 0 <= k < |rules| && rules[k].ruletype == HostOwnership && matches(rules[k].srcHostMatch, name)
          && rules[k].destOperator == post.owners.rows[o].operator && rules[k].destTeam == post.owners.rows[o].team
          && forall j :: k < j < |rules| && rules[j].ruletype == HostOwnership ==>
               !matches(rules[j].srcHostMatch, name)
  {
    var name := pre.assets.rows[id].name;
    var p := (r: Rule) => matches(r.srcHostMatch, name);
    var k := InForce(matches, Host, p, rules, HostOwnership, name);
    if j: nat :| j < |rules| && IsLast(p, rules, HostOwnership, j) {
      assert p(rules[j]);
      OneLast(p, rules, HostOwnership, j, k);
    }
  }

  /** The override of a hostname is that of the last ownership rule that matches it, cleared
      when the rule gives none; without such a rule, and for every other asset, it stays. */
  lemma HostnameTriage(matches: Matcher, pre: Db, rules: seq<Rule>, post: Db, id: nat)
    requires IsRun(matches, pre, rules, post) && id in pre.assets.rows
    ensures id in post.assets.rows
    ensures pre.assets.rows[id].assettype != "hostname" ==>
      post.assets.rows[id].triage == pre.assets.rows[id].triage
    ensures var name := pre.assets.rows[id].name;
      pre.assets.rows[id].assettype == "hostname" ==>
        && (post.assets.rows[id].triage == pre.assets.rows[id].triage ||
            exists k :: 0 <= k < |rules| && rules[k].ruletype == HostOwnership && matches(rules[k].srcHostMatch, name))
        && forall k | 0 <= k < |rules| && rules[k].ruletype == HostOwnership && matches(rules[k].srcHostMatch, name)
             && (forall j | k < j < |rules| && rules[j].ruletype == HostOwnership ::
                   !matches(rules[j].srcHostMatch, name)) ::
             post.assets.rows[id].triage ==
               if rules[k].destTriageOverride == "" then None else Some(rules[k].destTriageOverride)
  {
    var name := pre.assets.rows[id].name;
    var p := (r: Rule) => matches(r.srcHostMatch, name);
    var k := InForce(matches, Host, p, rules, HostOwnership, name);
    forall j: nat | IsLast(p, rules, HostOwnership, j) ensures j == k {
      assert p(rules[j]);
      OneLast(p, rules, HostOwnership, j, k);
    }
  }

  /** Nothing else about an asset changes, and assets neither come nor go; an asset of another
      type keeps its group as long as the group is there. */
  lemma AssetsKept(matches: Matcher, pre: Db, rules: seq<Rule>, post: Db, id: nat)
    requires IsRun(matches, pre, rules, post)
    ensures id in post.assets.rows <==> id in pre.assets.rows
    ensures id in pre.assets.rows ==>
      var a, b := pre.assets.rows[id], post.assets.rows[id];
      && b.assettype == a.assettype && b.name == a.name && b.zone == a.zone && b.lastIndicator == a.lastIndicator
      && (a.assettype != "hostname" && a.assettype != "website" ==>
            b.group == if a.group.Some? && a.group.value in post.groups.rows then a.group else None)
    ensures post.rras == pre.rras && post.indicators == pre.indicators && post.risks == pre.risks
    ensures post.assets.next == pre.assets.next
  {
  }

  /* ---------- groups and owners ---------- */

  /** The groups are exactly those the file adds. */
  lemma GroupsAfter(matches: Matcher, pre: Db, rules: seq<Rule>, post: Db, name: string)
    requires Consistent(pre) && IsRun(matches, pre, rules, post)
    ensures (exists id :: id in post.groups.rows && post.groups.rows[id] == name) <==>
      (exists k :: 0 <= k < |rules| && rules[k].ruletype == AssetGroupAdd && rules[k].destAssetGroupMatch == name)
  {
    var own := OfType(rules, AssetGroupAdd);
    var vals := GroupNames(own);
    ReconcileFacts(pre.groups, vals);
    if name in vals {
      var i :| 0 <= i < |vals| && vals[i] == name;
      var k := Place(rules, AssetGroupAdd, i);
    }
    if k :| 0 <= k < |rules| && rules[k].ruletype == AssetGroupAdd && rules[k].destAssetGroupMatch == name {
      OfTypeHas(rules, AssetGroupAdd, rules[k]);
      var i :| 0 <= i < |own| && own[i] == rules[k];
      assert vals[i] == name;
    }
  }

  /** No two of them are the same, and one that was there before keeps its id. */
  lemma GroupIdsAfter(matches: Matcher, pre: Db, rules: seq<Rule>, post: Db)
    requires Consistent(pre) && IsRun(matches, pre, rules, post)
    ensures forall i, j | i in post.groups.rows && j in post.groups.rows
      && post.groups.rows[i] == post.groups.rows[j] :: i == j
    ensures forall i, j | i in pre.groups.rows && j in post.groups.rows
      && pre.groups.rows[i] == post.groups.rows[j] :: i == j
  {
    ReconcileFacts(pre.groups, GroupNames(OfType(rules, AssetGroupAdd)));
  }

  /** The owners are exactly those the file adds. */
  lemma OwnersAfter(matches: Matcher, pre: Db, rules: seq<Rule>, post: Db, operator: string, team: string)
    requires Consistent(pre) && IsRun(matches, pre, rules, post)
    ensures (exists id :: id in post.owners.rows && post.owners.rows[id] == OwnerRow(operator, team)) <==>
      (exists k :: 0 <= k < |rules| && rules[k].ruletype == OwnerAdd && rules[k].destOperator == operator
        && rules[k].destTeam == team)
  {
    var own := OfType(rules, OwnerAdd);
    var vals := OwnerRows(own);
    ReconcileFacts(pre.owners, vals);
    if OwnerRow(operator, team) in vals {
      var i :| 0 <= i < |vals| && vals[i] == OwnerRow(operator, team);
      var k := Place(rules, OwnerAdd, i);
    }
    if k: int :| 0 <= k < |rules| && rules[k].ruletype == OwnerAdd && rules[k].destOperator == operator
                 && rules[k].destTeam == team
    {
      OfTypeHas(rules, OwnerAdd, rules[k]);
      var i :| 0 <= i < |own| && own[i] == rules[k];
      assert vals[i] == OwnerRow(operator, team);
    }
  }

  /** No two of them are the same, and one that was there before keeps its id. */
  lemma OwnerIdsAfter(matches: Matcher, pre: Db, rules: seq<Rule>, post: Db)
    requires Consistent(pre) && IsRun(matches, pre, rules, post)
    ensures forall i, j | i in post.owners.rows && j in post.owners.rows
      && post.owners.rows[i] == post.owners.rows[j] :: i == j
    ensures forall i, j | i in pre.owners.rows && j in post.owners.rows
      && pre.owners.rows[i] == post.owners.rows[j] :: i == j
  {
    ReconcileFacts(pre.owners, OwnerRows(OfType(rules, OwnerAdd)));
  }

  /* ---------- links of services ---------- */

  /** An RRA is linked to group g, once, exactly when a service-link rule of the file whose
      service pattern matches it names g; no row is about an unknown RRA. */
  lemma LinksAfter(matches: Matcher, pre: Db, rules: seq<Rule>, post: Db, rraid: nat, g: nat)
    requires IsRun(matches, pre, rules, post)
    ensures multiset(post.links)[LinkRow(rraid, Some(g))] ==
      if rraid in pre.rras.rows && g in post.groups.rows &&
         exists k :: 0 <= k < |rules| && rules[k].ruletype == AssetGroupLinkService
           && matches(rules[k].destServiceMatch, pre.rras.rows[rraid].name)
           && rules[k].srcAssetGroupMatch == post.groups.rows[g]
      then 1 else 0
  {
    var own := OfType(rules, AssetGroupLinkService);
    FinalLinks(matches, pre, rules, post, rraid, g);
    var row := LinkRow(rraid, Some(g));
    assert row in post.links <==> multiset(post.links)[row] > 0;
    if rraid in pre.rras.rows && g in post.groups.rows {
      var service, group := pre.rras.rows[rraid].name, post.groups.rows[g];
      if i :| 0 <= i < |own| && matches(own[i].destServiceMatch, service) && own[i].srcAssetGroupMatch == group {
        var k := Place(rules, AssetGroupLinkService, i);
      }
      if k: int :| 0 <= k < |rules| && rules[k].ruletype == AssetGroupLinkService
                   && matches(rules[k].destServiceMatch, service) && rules[k].srcAssetGroupMatch == group
      {
        OfTypeHas(rules, AssetGroupLinkService, rules[k]);
        var i :| 0 <= i < |own| && own[i] == rules[k];
      }
    }
  }

  /** The places of the file with a service-link rule that matches the service and names no
      group there is. */
  ghost function DanglingPlaces(matches: Matcher, groups: map<nat, string>, rules: seq<Rule>, service: string)
    : set<nat>
  {
    set k | 0 <= k < |rules| && rules[k].ruletype == AssetGroupLinkService
      && matches(rules[k].destServiceMatch, service)
      && forall g :: g in groups ==> groups[g] != rules[k].srcAssetGroupMatch
  }

  lemma DanglingPlace(matches: Matcher, groups: map<nat, string>, rules: seq<Rule>, service: string)
    requires rules != []
    ensures var n := |rules| - 1;
      var before := DanglingPlaces(matches, groups, rules[..n], service);
      && n !in before
      && DanglingPlaces(matches, groups, rules, service) ==
           if rules[n].ruletype == AssetGroupLinkService && Dangling(matches, groups, rules[n], service)
           then before + {n} else before
  {
  }

  lemma {:induction false} DanglingCount(matches: Matcher, groups: map<nat, string>, rules: seq<Rule>, service: string)
    ensures DanglingRules(matches, groups, OfType(rules, AssetGroupLinkService), service) ==
      |DanglingPlaces(matches, groups, rules, service)|
  {
    if rules == [] {
      assert DanglingPlaces(matches, groups, rules, service) == {};
    } else {
      var n := |rules| - 1;
      var own := OfType(rules, AssetGroupLinkService);
      DanglingCount(matches, groups, rules[..n], service);
      DanglingPlace(matches, groups, rules, service);
      if rules[n].ruletype == AssetGroupLinkService {
        assert own[..|own| - 1] == OfType(rules[..n], AssetGroupLinkService);
      }
    }
  }

  /** One NULL row for each such place, for every RRA there is. */
  lemma NullLinksAfter(matches: Matcher, pre: Db, rules: seq<Rule>, post: Db, rraid: nat)
    requires IsRun(matches, pre, rules, post)
    ensures multiset(post.links)[LinkRow(rraid, None)] ==
      if rraid in pre.rras.rows then
        |DanglingPlaces(matches, post.groups.rows, rules, pre.rras.rows[rraid].name)|
      else 0
  {
    if rraid in pre.rras.rows {
      FinalNullLinks(matches, pre, rules, post, rraid);
      DanglingCount(matches, post.groups.rows, rules, pre.rras.rows[rraid].name);
    }
  }
}
