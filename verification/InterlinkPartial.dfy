/** The states a run passes through: what a failing call leaves behind when there is no
    transaction to undo it. Each stage either did not start, is part way, or is complete. */
module InterlinkPartial {
  import opened Results
  import opened Rules
  import opened ServiceLib
  import opened Tables
  import opened Database
  import opened InterlinkSpec
  import opened SchemaKeeping

  /* ---------- the reconciling stages ---------- */

  /** The state after the first n inserts of the group stage. */
  function GroupsAdded(db: Db, rules: seq<Rule>, n: nat): Db
    requires n <= |rules|
  {
    db.(groups := AddMissing(db.groups, GroupNames(rules)[..n]))
  }

  function OwnersAdded(db: Db, rules: seq<Rule>, n: nat): Db
    requires n <= |rules|
  {
    db.(owners := AddMissing(db.owners, OwnerRows(rules)[..n]))
  }

  lemma GroupAddedStep(db: Db, rules: seq<Rule>, n: nat)
    requires n < |rules|
    ensures var d := GroupsAdded(db, rules, n);
      GroupsAdded(db, rules, n + 1) == d.(groups := InsertAbsent(d.groups, rules[n].destAssetGroupMatch))
  {
    var vals := GroupNames(rules);
    assert vals[..n + 1][..n] == vals[..n];
  }

  lemma OwnerAddedStep(db: Db, rules: seq<Rule>, n: nat)
    requires n < |rules|
    ensures var d := OwnersAdded(db, rules, n);
      OwnersAdded(db, rules, n + 1) ==
        d.(owners := InsertAbsent(d.owners, OwnerRow(rules[n].destOperator, rules[n].destTeam)))
  {
    var vals := OwnerRows(rules);
    assert vals[..n + 1][..n] == vals[..n];
  }

  /** How far a reconciling stage got: n inserts; or all of them, the listing, the removal of
      the rows gone, and k of the statements that remove row x. */
  datatype TableProgress = Adding(n: nat) | Removing(gone: set<nat>, x: nat, k: nat)

  /** Group x is being removed from db0: none, one or two of the three statements are done. */
  ghost predicate RemovingGroup(matches: Matcher, db0: Db, x: nat, k: nat, db: Db) {
    Consistent(db0) && k < 3 &&
    db == if k == 0 then db0 else if k == 1 then Unassigned(matches, db0, x) else Unlinked(matches, db0, x)
  }

  ghost predicate RemovingOwner(matches: Matcher, db0: Db, x: nat, k: nat, db: Db) {
    Consistent(db0) && k < 2 && db == if k == 0 then db0 else Unowned(matches, db0, x)
  }

  ghost predicate PartPrune(matches: Matcher, db0: Db, undeclared: set<nat>, gone: set<nat>, x: nat, k: nat, db: Db) {
    gone <= undeclared && x in undeclared - gone && RemovingGroup(matches, DropGroups(db0, gone), x, k, db)
  }

  ghost predicate PartPruneOwners(matches: Matcher, db0: Db, undeclared: set<nat>, gone: set<nat>, x: nat, k: nat,
                                  db: Db) {
    gone <= undeclared && x in undeclared - gone && RemovingOwner(matches, DropOwners(db0, gone), x, k, db)
  }

  ghost predicate PartGroupAdd(matches: Matcher, db0: Db, rules: seq<Rule>, at: TableProgress, db: Db) {
    match at
    case Adding(n) => n <= |rules| && db == GroupsAdded(db0, rules, n)
    case Removing(gone, x, k) =>
      var added := GroupsAdded(db0, rules, |rules|);
      PartPrune(matches, added, Undeclared(added.groups.rows, GroupNames(rules)), gone, x, k, db)
  }

  ghost predicate PartOwnerAdd(matches: Matcher, db0: Db, rules: seq<Rule>, at: TableProgress, db: Db) {
    match at
    case Adding(n) => n <= |rules| && db == OwnersAdded(db0, rules, n)
    case Removing(gone, x, k) =>
      var added := OwnersAdded(db0, rules, |rules|);
      PartPruneOwners(matches, added, Undeclared(added.owners.rows, OwnerRows(rules)), gone, x, k, db)
  }

  /** The calls that took, of a stage with this many inserts and statements for a removal. */
  function TableCalls(at: TableProgress, inserts: nat, each: nat): nat {
    match at
    case Adding(n) => n
    case Removing(gone, x, k) => inserts + 1 + each * |gone| + k
  }

  /** The calls of the complete stages: inserts, listing, removals. */
  function GroupCalls(db: Db, rules: seq<Rule>): nat {
    |rules| + 1 + 3 * |Undeclared(GroupsAdded(db, rules, |rules|).groups.rows, GroupNames(rules))|
  }

  function OwnerCalls(db: Db, rules: seq<Rule>): nat {
    |rules| + 1 + 2 * |Undeclared(OwnersAdded(db, rules, |rules|).owners.rows, OwnerRows(rules))|
  }

  /* ---------- the linking stages ---------- */

  /** After no call nothing has changed; after one the links are cleared; then a rule each. */
  ghost predicate PartGroupLink(matches: Matcher, db0: Db, assettype: string, source: Source, rules: seq<Rule>,
                                calls: nat, db: Db)
    requires Distinct(db0.groups.rows)
  {
    calls <= |rules| &&
    db == if calls == 0 then db0 else AfterGroupLink(matches, db0, assettype, source, rules[..calls - 1])
  }

  function OwnerHalf(matches: Matcher, db: Db, r: Rule): Db
    requires Distinct(db.groups.rows) && Distinct(db.owners.rows)
  {
    UpdateAssets(matches, db, SetHostOwner(r.srcHostMatch, r.destOperator, r.destTeam))
  }

  /** How far the ownership stage got: nowhere, or n rules, and then perhaps the owner half of
      the next. */
  datatype OwnershipProgress = NotReset | Owned(n: nat, half: bool)

  ghost predicate PartOwnerLink(matches: Matcher, db0: Db, rules: seq<Rule>, at: OwnershipProgress, db: Db)
    requires Distinct(db0.groups.rows) && Distinct(db0.owners.rows)
  {
    match at
    case NotReset => db == db0
    case Owned(n, half) =>
      n < |rules| &&
      var mid := AfterOwnerLink(matches, db0, rules[..n]);
      db == if half then OwnerHalf(matches, mid, rules[n]) else mid
  }

  function OwnershipCalls(at: OwnershipProgress): nat {
    match at
    case NotReset => 0
    case Owned(n, half) => 1 + 2 * n + if half then 1 else 0
  }

  /** The RRAs a service-link rule matches. */
  function Matching(matches: Matcher, rras: map<nat, RRARow>, pattern: string): set<nat> {
    set x | x in rras && matches(pattern, rras[x].name)
  }

  /** The calls of these service-link rules: a listing each, and an insert for each match. */
  function LinkCalls(matches: Matcher, rras: map<nat, RRARow>, rules: seq<Rule>): nat {
    if rules == [] then 0
    else
      LinkCalls(matches, rras, rules[..|rules| - 1]) + 1 +
      |Matching(matches, rras, rules[|rules| - 1].destServiceMatch)|
  }

  /** How far the service-link stage got: nowhere, n rules, or besides those the listing for
      the next rule and its inserts for the RRAs done. */
  datatype ServiceProgress = NotEmptied | Listing(n: nat) | Linking(n: nat, done: seq<nat>)

  ghost predicate PartServiceLink(matches: Matcher, db0: Db, rules: seq<Rule>, at: ServiceProgress, db: Db)
    requires Distinct(db0.groups.rows)
  {
    match at
    case NotEmptied => db == db0
    case Listing(n) => n < |rules| && db == db0.(links := db.links) && LinksAre(matches, db, rules[..n])
    case Linking(n, done) =>
      && n < |rules| && db == db0.(links := db.links)
      && (forall x :: x in done ==> x in Matching(matches, db0.rras.rows, rules[n].destServiceMatch))
      && (forall i, j :: 0 <= i < j < |done| ==> done[i] != done[j])
      && LinksPartly(matches, db, rules, n, done)
  }

  function ServiceCalls(matches: Matcher, rras: map<nat, RRARow>, rules: seq<Rule>, at: ServiceProgress): nat {
    match at
    case NotEmptied => 0
    case Listing(n) => if n <= |rules| then 1 + LinkCalls(matches, rras, rules[..n]) else 0
    case Linking(n, done) => if n <= |rules| then 2 + LinkCalls(matches, rras, rules[..n]) + |done| else 0
  }

  /* ---------- the whole run ---------- */

  /** The states after each of the first two stages that link assets, from db0 on. */
  function HostsLinked(matches: Matcher, db0: Db, rules: seq<Rule>): Db
    requires Distinct(db0.groups.rows)
  {
    AfterGroupLink(matches, db0, HOSTNAME, Host, OfType(rules, HostLinkAssetGroup))
  }

  function HostsOwned(matches: Matcher, db0: Db, rules: seq<Rule>): Db
    requires Distinct(db0.groups.rows) && Distinct(db0.owners.rows)
  {
    AfterOwnerLink(matches, HostsLinked(matches, db0, rules), OfType(rules, HostOwnership))
  }

  datatype LinkProgress =
    | InHosts(calls: nat)
    | InOwnership(own: OwnershipProgress)
    | InWebsites(calls: nat)
    | InServices(services: ServiceProgress)

  ghost predicate PartLinks(matches: Matcher, db0: Db, rules: seq<Rule>, at: LinkProgress, db: Db)
    requires Distinct(db0.groups.rows) && Distinct(db0.owners.rows)
  {
    match at
    case InHosts(n) => PartGroupLink(matches, db0, HOSTNAME, Host, OfType(rules, HostLinkAssetGroup), n, db)
    case InOwnership(own) =>
      PartOwnerLink(matches, HostsLinked(matches, db0, rules), OfType(rules, HostOwnership), own, db)
    case InWebsites(n) =>
      PartGroupLink(matches, HostsOwned(matches, db0, rules), WEBSITE, Website,
                    OfType(rules, WebsiteLinkAssetGroup), n, db)
    case InServices(services) =>
      PartServiceLink(matches, AfterLinking(matches, db0, rules), OfType(rules, AssetGroupLinkService), services, db)
  }

  function PartLinksCalls(matches: Matcher, rras: map<nat, RRARow>, rules: seq<Rule>, at: LinkProgress): nat {
    var h := 1 + |OfType(rules, HostLinkAssetGroup)|;
    var o := 1 + 2 * |OfType(rules, HostOwnership)|;
    var w := 1 + |OfType(rules, WebsiteLinkAssetGroup)|;
    match at
    case InHosts(n) => n
    case InOwnership(own) => h + OwnershipCalls(own)
    case InWebsites(n) => h + o + n
    case InServices(services) =>
      h + o + w + ServiceCalls(matches, rras, OfType(rules, AssetGroupLinkService), services)
  }

  /** Where a run stopped. */
  datatype Progress = InGroups(groups: TableProgress) | InOwners(owners: TableProgress) | InLinks(links: LinkProgress)

  /** What a run leaves behind that got this far: the complete stages before the call that
      failed, and as much of its own stage as the calls got done. */
  ghost predicate Unfinished(matches: Matcher, pre: Db, rules: seq<Rule>, at: Progress, db: Db) {
    match at
    case InGroups(t) => PartGroupAdd(matches, pre, OfType(rules, AssetGroupAdd), t, db)
    case InOwners(t) =>
      PartOwnerAdd(matches, AfterGroupAdd(pre, OfType(rules, AssetGroupAdd)), OfType(rules, OwnerAdd), t, db)
    case InLinks(l) =>
      var mid := AfterAdds(pre, rules);
      Distinct(mid.groups.rows) && Distinct(mid.owners.rows) && PartLinks(matches, mid, rules, l, db)
  }

  /** The number of calls that took, Begin aside. */
  function CallsDone(matches: Matcher, pre: Db, rules: seq<Rule>, at: Progress): nat {
    var groups, owners := OfType(rules, AssetGroupAdd), OfType(rules, OwnerAdd);
    match at
    case InGroups(t) => TableCalls(t, |groups|, 3)
    case InOwners(t) => GroupCalls(pre, groups) + TableCalls(t, |owners|, 2)
    case InLinks(l) => AddCalls(pre, rules) + PartLinksCalls(matches, pre.rras.rows, rules, l)
  }

  /** The calls of both reconciling stages. */
  function AddCalls(pre: Db, rules: seq<Rule>): nat {
    GroupCalls(pre, OfType(rules, AssetGroupAdd)) +
    OwnerCalls(AfterGroupAdd(pre, OfType(rules, AssetGroupAdd)), OfType(rules, OwnerAdd))
  }

  /* ---------- such a state satisfies the schema ---------- */

  lemma DropGroupsKeeps(db: Db, ids: set<nat>)
    requires Consistent(db)
    ensures Consistent(DropGroups(db, ids))
  {
    WithoutGroupsKeeps(db, ids);
    WithoutGroupsFacts(db.links, ids);
  }

  lemma DropOwnersKeeps(db: Db, ids: set<nat>)
    requires Consistent(db)
    ensures Consistent(DropOwners(db, ids))
  {
  }

  lemma GroupsAddedKeeps(db: Db, rules: seq<Rule>, n: nat)
    requires Consistent(db) && n <= |rules|
    ensures Consistent(GroupsAdded(db, rules, n))
  {
    AddMissingFacts(db.groups, GroupNames(rules)[..n]);
  }

  lemma OwnersAddedKeeps(db: Db, rules: seq<Rule>, n: nat)
    requires Consistent(db) && n <= |rules|
    ensures Consistent(OwnersAdded(db, rules, n))
  {
    AddMissingFacts(db.owners, OwnerRows(rules)[..n]);
  }

  lemma GroupAddKeeps(db: Db, rules: seq<Rule>)
    requires Consistent(db)
    ensures Consistent(AfterGroupAdd(db, rules))
  {
    var added := GroupsAdded(db, rules, |rules|);
    assert GroupNames(rules)[..|rules|] == GroupNames(rules);
    GroupsAddedKeeps(db, rules, |rules|);
    DropGroupsKeeps(added, Undeclared(added.groups.rows, GroupNames(rules)));
  }

  lemma OwnerAddKeeps(db: Db, rules: seq<Rule>)
    requires Consistent(db)
    ensures Consistent(AfterOwnerAdd(db, rules))
  {
    var added := OwnersAdded(db, rules, |rules|);
    assert OwnerRows(rules)[..|rules|] == OwnerRows(rules);
    OwnersAddedKeeps(db, rules, |rules|);
    DropOwnersKeeps(added, Undeclared(added.owners.rows, OwnerRows(rules)));
  }

  lemma GroupLinkKeeps(matches: Matcher, db: Db, assettype: string, source: Source, rules: seq<Rule>)
    requires Consistent(db)
    ensures Consistent(AfterGroupLink(matches, db, assettype, source, rules))
  {
  }

  lemma OwnerLinkKeeps(matches: Matcher, db: Db, rules: seq<Rule>)
    requires Consistent(db)
    ensures Consistent(AfterOwnerLink(matches, db, rules))
  {
  }

  /** The link table has no row twice, and refers to what there is, when its multiplicities
      are those of linking rules. */
  lemma LinksKeep(matches: Matcher, db0: Db, rules: seq<Rule>, more: seq<Rule>, done: seq<nat>, db: Db)
    requires Consistent(db0) && db == db0.(links := db.links)
    requires forall row ::
      multiset(db.links)[row] ==
      LinkCount(matches, db.groups.rows, db.rras.rows, if row.rraid in done then more else rules, row)
    ensures Consistent(db)
  {
    LinkKeyCounts(db.links);
    forall i | 0 <= i < |db.links|
      ensures db.links[i].rraid in db.rras.rows
      ensures db.links[i].group.Some? ==> db.links[i].group.value in db.groups.rows
    {
      var row := db.links[i];
      assert row in multiset(db.links);
      LinkedRowExists(matches, db.groups.rows, if row.rraid in done then more else rules,
                      db.rras.rows[row.rraid].name, row.group);
    }
  }

  lemma {:induction false} LinkedRowExists(matches: Matcher, groups: map<nat, string>, rules: seq<Rule>,
                                           service: string, group: Option<nat>)
    requires Distinct(groups) && LinkingRules(matches, groups, rules, service, group) > 0
    ensures group.Some? ==> group.value in groups
  {
    var n := |rules| - 1;
    if group.Some? && !Links(matches, groups, rules[n], service, group) {
      LinkedRowExists(matches, groups, rules[..n], service, group);
    }
  }

  lemma ServicesKeep(matches: Matcher, db0: Db, rules: seq<Rule>, at: ServiceProgress, db: Db)
    requires Consistent(db0) && PartServiceLink(matches, db0, rules, at, db)
    ensures Consistent(db)
  {
    match at
    case NotEmptied =>
    case Listing(n) => LinksKeep(matches, db0, rules[..n], [], [], db);
    case Linking(n, done) => LinksKeep(matches, db0, rules[..n], rules[..n + 1], done, db);
  }

  lemma GroupAddPartKeeps(matches: Matcher, db0: Db, rules: seq<Rule>, at: TableProgress, db: Db)
    requires Consistent(db0) && PartGroupAdd(matches, db0, rules, at, db)
    ensures Consistent(db)
  {
    match at
    case Adding(n) => GroupsAddedKeeps(db0, rules, n);
    case Removing(gone, x, k) => RemoveGroupKeeps(matches, DropGroups(GroupsAdded(db0, rules, |rules|), gone), x);
  }

  lemma OwnerAddPartKeeps(matches: Matcher, db0: Db, rules: seq<Rule>, at: TableProgress, db: Db)
    requires Consistent(db0) && PartOwnerAdd(matches, db0, rules, at, db)
    ensures Consistent(db)
  {
    match at
    case Adding(n) => OwnersAddedKeeps(db0, rules, n);
    case Removing(gone, x, k) => RemoveOwnerKeeps(matches, DropOwners(OwnersAdded(db0, rules, |rules|), gone), x);
  }

  lemma OwnershipKeeps(matches: Matcher, db0: Db, rules: seq<Rule>, at: OwnershipProgress, db: Db)
    requires Consistent(db0) && PartOwnerLink(matches, db0, rules, at, db)
    ensures Consistent(db)
  {
    if at.Owned? {
      var r := rules[at.n];
      OwnerLinkKeeps(matches, db0, rules[..at.n]);
      UpdateKeeps(matches, AfterOwnerLink(matches, db0, rules[..at.n]),
                  SetHostOwner(r.srcHostMatch, r.destOperator, r.destTeam));
    }
  }

  lemma GroupLinkPartKeeps(matches: Matcher, db0: Db, assettype: string, source: Source, rules: seq<Rule>,
                           calls: nat, db: Db)
    requires Consistent(db0) && PartGroupLink(matches, db0, assettype, source, rules, calls, db)
    ensures Consistent(db)
  {
    if calls > 0 {
      GroupLinkKeeps(matches, db0, assettype, source, rules[..calls - 1]);
    }
  }

  lemma LinksPartKeeps(matches: Matcher, db0: Db, rules: seq<Rule>, at: LinkProgress, db: Db)
    requires Consistent(db0) && PartLinks(matches, db0, rules, at, db)
    ensures Consistent(db)
  {
    var hosts, own := OfType(rules, HostLinkAssetGroup), OfType(rules, HostOwnership);
    var sites := OfType(rules, WebsiteLinkAssetGroup);
    var c, d := HostsLinked(matches, db0, rules), HostsOwned(matches, db0, rules);
    GroupLinkKeeps(matches, db0, HOSTNAME, Host, hosts);
    OwnerLinkKeeps(matches, c, own);
    GroupLinkKeeps(matches, d, WEBSITE, Website, sites);
    match at
    case InHosts(n) => GroupLinkPartKeeps(matches, db0, HOSTNAME, Host, hosts, n, db);
    case InOwnership(o) => OwnershipKeeps(matches, c, own, o, db);
    case InWebsites(n) => GroupLinkPartKeeps(matches, d, WEBSITE, Website, sites, n, db);
    case InServices(v) =>
      ServicesKeep(matches, AfterLinking(matches, db0, rules), OfType(rules, AssetGroupLinkService), v, db);
  }

  /** Wherever a run stops, the schema holds. */
  lemma UnfinishedKeepsSchema(matches: Matcher, pre: Db, rules: seq<Rule>, at: Progress, db: Db)
    requires Consistent(pre) && Unfinished(matches, pre, rules, at, db)
    ensures Consistent(db)
  {
    var groups, owners := OfType(rules, AssetGroupAdd), OfType(rules, OwnerAdd);
    GroupAddKeeps(pre, groups);
    OwnerAddKeeps(AfterGroupAdd(pre, groups), owners);
    match at
    case InGroups(t) => GroupAddPartKeeps(matches, pre, groups, t, db);
    case InOwners(t) => OwnerAddPartKeeps(matches, AfterGroupAdd(pre, groups), owners, t, db);
    case InLinks(l) => LinksPartKeeps(matches, AfterAdds(pre, rules), rules, l, db);
  }

  /** Besides groups, owners and their references nothing changes. */
  lemma UnfinishedFrame(matches: Matcher, pre: Db, rules: seq<Rule>, at: Progress, db: Db)
    requires Unfinished(matches, pre, rules, at, db)
    ensures SameRest(pre, db)
  {
    if at.InLinks? {
      LinksFrame(matches, AfterAdds(pre, rules), rules, at.links, db);
    } else if at.InGroups? {
      GroupsFrame(matches, pre, OfType(rules, AssetGroupAdd), at.groups, db);
    } else {
      OwnersFrame(matches, AfterGroupAdd(pre, OfType(rules, AssetGroupAdd)), OfType(rules, OwnerAdd), at.owners, db);
    }
  }

  predicate SameRest(a: Db, b: Db) {
    b.rras == a.rras && b.indicators == a.indicators && b.risks == a.risks && b.assets.next == a.assets.next
  }

  lemma GroupsFrame(matches: Matcher, db0: Db, rules: seq<Rule>, at: TableProgress, db: Db)
    requires PartGroupAdd(matches, db0, rules, at, db)
    ensures SameRest(db0, db)
  {
  }

  lemma OwnersFrame(matches: Matcher, db0: Db, rules: seq<Rule>, at: TableProgress, db: Db)
    requires PartOwnerAdd(matches, db0, rules, at, db)
    ensures SameRest(db0, db)
  {
  }

  lemma LinksFrame(matches: Matcher, db0: Db, rules: seq<Rule>, at: LinkProgress, db: Db)
    requires Distinct(db0.groups.rows) && Distinct(db0.owners.rows) && PartLinks(matches, db0, rules, at, db)
    ensures SameRest(db0, db)
  {
  }

  /* ---------- what every such state has in common ---------- */

  /** Ids are handed out in order and never change their value. */
  ghost predicate Evolves<V>(a: Table<V>, b: Table<V>) {
    && Serial(a) && Serial(b) && a.next <= b.next
    && (forall id :: id in b.rows && id !in a.rows ==> id >= a.next)
    && (forall id :: id in a.rows && id in b.rows ==> a.rows[id] == b.rows[id])
  }

  lemma ReconcileEvolves<V>(t: Table<V>, vals: seq<V>, n: nat, gone: set<nat>)
    requires Serial(t) && Distinct(t.rows) && n <= |vals|
    ensures Evolves(t, Reconcile(t, vals))
    ensures Evolves(t, AddMissing(t, vals[..n]))
    ensures Evolves(t, Delete(AddMissing(t, vals), gone))
  {
    ReconcileFacts(t, vals);
    AddMissingFacts(t, vals[..n]);
    AddMissingFacts(t, vals);
  }

  /** Which hostnames have which override after applying these ownership rules to a. */
  ghost predicate TriageBy(matches: Matcher, a: Db, own: seq<Rule>, b: Db) {
    forall id :: id in a.assets.rows ==>
      && id in b.assets.rows
      && var x, y := a.assets.rows[id], b.assets.rows[id];
         && y.assettype == x.assettype && y.name == x.name
         && y.triage == if x.assettype == HOSTNAME then TriageFor(matches, own, x.name, x.triage) else x.triage
  }

  /** Wherever a run stops, the overrides are those of the ownership rules it reached, which
      are the first ones, and the group and owner tables have evolved. */
  ghost predicate StoppedAt(matches: Matcher, a: Db, rules: seq<Rule>, reached: seq<Rule>, b: Db) {
    && reached <= OfType(rules, HostOwnership)
    && TriageBy(matches, a, reached, b)
    && Evolves(a.groups, b.groups) && Evolves(a.owners, b.owners)
  }

  /** The ownership rules that were applied in full: the first n, once the run is in the
      stage that applies them, and all of them afterwards. */
  function Reached(rules: seq<Rule>, at: Progress): seq<Rule> {
    match at
    case InLinks(l) => ReachedIn(OfType(rules, HostOwnership), l)
    case _ => []
  }

  function ReachedIn(own: seq<Rule>, at: LinkProgress): seq<Rule> {
    match at
    case InHosts(_) => []
    case InOwnership(o) => if o.Owned? && o.n <= |own| then own[..o.n] else []
    case _ => own
  }

  lemma UnfinishedStops(matches: Matcher, pre: Db, rules: seq<Rule>, at: Progress, db: Db)
    requires Consistent(pre) && Unfinished(matches, pre, rules, at, db)
    ensures StoppedAt(matches, pre, rules, Reached(rules, at), db)
  {
    var groups := OfType(rules, AssetGroupAdd);
    match at {
      case InGroups(t) =>
        GroupsPartly(matches, pre, groups, t, db);
        TriageKept(matches, pre, db);
      case InOwners(t) =>
        OwnersAfterGroups(matches, pre, rules, t, db);
        TriageKept(matches, pre, db);
      case InLinks(l) =>
        var mid := AfterAdds(pre, rules);
        AddsEvolve(pre, rules);
        LinksPartlyTriage(matches, mid, rules, l, db);
        TriageFrom(matches, pre, mid, ReachedIn(OfType(rules, HostOwnership), l), db);
    }
  }

  lemma TriageFrom(matches: Matcher, a: Db, b: Db, own: seq<Rule>, c: Db)
    requires SameTriage(a.assets.rows, b.assets.rows) && TriageBy(matches, b, own, c)
    ensures TriageBy(matches, a, own, c)
  {
  }

  lemma OwnersAfterGroups(matches: Matcher, pre: Db, rules: seq<Rule>, at: TableProgress, db: Db)
    requires Consistent(pre)
    requires PartOwnerAdd(matches, AfterGroupAdd(pre, OfType(rules, AssetGroupAdd)), OfType(rules, OwnerAdd), at, db)
    ensures Evolves(pre.groups, db.groups) && Evolves(pre.owners, db.owners)
    ensures SameTriage(pre.assets.rows, db.assets.rows)
  {
    var groups := OfType(rules, AssetGroupAdd);
    ReconcileEvolves(pre.groups, GroupNames(groups), 0, {});
    OwnersPartly(matches, AfterGroupAdd(pre, groups), OfType(rules, OwnerAdd), at, db);
  }

  lemma RemovingGroupKeeps(matches: Matcher, db0: Db, x: nat, k: nat, db: Db)
    requires RemovingGroup(matches, db0, x, k, db)
    ensures db.groups == db0.groups && db.owners == db0.owners
    ensures SameTriage(db0.assets.rows, db.assets.rows)
  {
    UnassignedTriage(matches, db0, x);
  }

  lemma UnassignedTriage(matches: Matcher, db0: Db, x: nat)
    requires Consistent(db0)
    ensures SameTriage(db0.assets.rows, Unassigned(matches, db0, x).assets.rows)
  {
  }

  lemma RemovingOwnerKeeps(matches: Matcher, db0: Db, x: nat, k: nat, db: Db)
    requires RemovingOwner(matches, db0, x, k, db)
    ensures db.groups == db0.groups && db.owners == db0.owners
    ensures SameTriage(db0.assets.rows, db.assets.rows)
  {
  }

  /** Removing groups changes no other table than it must, and no override. */
  lemma DroppingGroupsKeeps(matches: Matcher, db0: Db, gone: set<nat>, x: nat, k: nat, db: Db)
    requires RemovingGroup(matches, DropGroups(db0, gone), x, k, db)
    ensures db.groups == Delete(db0.groups, gone) && db.owners == db0.owners
    ensures SameTriage(db0.assets.rows, db.assets.rows)
  {
    var mid := DropGroups(db0, gone);
    assert SameTriage(db0.assets.rows, mid.assets.rows);
    RemovingGroupKeeps(matches, mid, x, k, db);
  }

  /** Removing owners changes no other table than it must, and no override. */
  lemma DroppingOwnersKeeps(matches: Matcher, db0: Db, gone: set<nat>, x: nat, k: nat, db: Db)
    requires RemovingOwner(matches, DropOwners(db0, gone), x, k, db)
    ensures db.owners == Delete(db0.owners, gone) && db.groups == db0.groups
    ensures SameTriage(db0.assets.rows, db.assets.rows)
  {
    var mid := DropOwners(db0, gone);
    assert SameTriage(db0.assets.rows, mid.assets.rows);
    RemovingOwnerKeeps(matches, mid, x, k, db);
  }

  predicate SameTriage(a: map<nat, AssetRow>, b: map<nat, AssetRow>) {
    forall id :: id in a ==>
      id in b && b[id].assettype == a[id].assettype && b[id].name == a[id].name && b[id].triage == a[id].triage
  }

  lemma TriageKept(matches: Matcher, a: Db, b: Db)
    requires SameTriage(a.assets.rows, b.assets.rows)
    ensures TriageBy(matches, a, [], b)
  {
  }

  lemma GroupsPartly(matches: Matcher, db0: Db, rules: seq<Rule>, at: TableProgress, db: Db)
    requires Consistent(db0) && PartGroupAdd(matches, db0, rules, at, db)
    ensures Evolves(db0.groups, db.groups) && db.owners == db0.owners
    ensures SameTriage(db0.assets.rows, db.assets.rows)
  {
    var vals := GroupNames(rules);
    assert vals[..|rules|] == vals;
    match at {
      case Adding(n) => ReconcileEvolves(db0.groups, vals, n, {});
      case Removing(gone, x, k) =>
        DroppingGroupsKeeps(matches, GroupsAdded(db0, rules, |rules|), gone, x, k, db);
        ReconcileEvolves(db0.groups, vals, 0, gone);
    }
  }

  lemma OwnersPartly(matches: Matcher, db0: Db, rules: seq<Rule>, at: TableProgress, db: Db)
    requires Serial(db0.owners) && Distinct(db0.owners.rows) && PartOwnerAdd(matches, db0, rules, at, db)
    ensures Evolves(db0.owners, db.owners) && db.groups == db0.groups
    ensures SameTriage(db0.assets.rows, db.assets.rows)
  {
    var vals := OwnerRows(rules);
    assert vals[..|rules|] == vals;
    match at {
      case Adding(n) => ReconcileEvolves(db0.owners, vals, n, {});
      case Removing(gone, x, k) =>
        DroppingOwnersKeeps(matches, OwnersAdded(db0, rules, |rules|), gone, x, k, db);
        ReconcileEvolves(db0.owners, vals, 0, gone);
    }
  }

  lemma AddsEvolve(db: Db, rules: seq<Rule>)
    requires Consistent(db)
    ensures Evolves(db.groups, AfterAdds(db, rules).groups) && Evolves(db.owners, AfterAdds(db, rules).owners)
    ensures SameTriage(db.assets.rows, AfterAdds(db, rules).assets.rows)
  {
    ReconcileEvolves(db.groups, GroupNames(OfType(rules, AssetGroupAdd)), 0, {});
    ReconcileEvolves(db.owners, OwnerRows(OfType(rules, OwnerAdd)), 0, {});
    AddFacts(db, rules);
  }

  lemma LinksPartlyTriage(matches: Matcher, db0: Db, rules: seq<Rule>, at: LinkProgress, db: Db)
    requires Distinct(db0.groups.rows) && Distinct(db0.owners.rows)
    requires PartLinks(matches, db0, rules, at, db)
    ensures var reached := ReachedIn(OfType(rules, HostOwnership), at);
      reached <= OfType(rules, HostOwnership) && TriageBy(matches, db0, reached, db)
    ensures db.groups == db0.groups && db.owners == db0.owners
  {
    var own := OfType(rules, HostOwnership);
    var c := HostsLinked(matches, db0, rules);
    assert SameTriage(db0.assets.rows, c.assets.rows);
    match at {
      case InHosts(n) =>
        GroupLinkTriage(matches, db0, HOSTNAME, Host, OfType(rules, HostLinkAssetGroup), n, db);
        TriageKept(matches, db0, db);
      case InOwnership(o) =>
        OwnerLinkTriage(matches, c, own, o, db);
        TriageFrom(matches, db0, c, ReachedIn(own, at), db);
      case InWebsites(n) =>
        var d := HostsOwned(matches, db0, rules);
        OwnedTriage(matches, c, own);
        TriageFrom(matches, db0, c, own, d);
        GroupLinkTriage(matches, d, WEBSITE, Website, OfType(rules, WebsiteLinkAssetGroup), n, db);
        TriageThen(matches, db0, own, d, db);
      case InServices(_) =>
        var d := HostsOwned(matches, db0, rules);
        OwnedTriage(matches, c, own);
        TriageFrom(matches, db0, c, own, d);
        LinkedTriage(matches, d, WEBSITE, Website, OfType(rules, WebsiteLinkAssetGroup));
        TriageThen(matches, db0, own, d, db);
    }
  }

  lemma TriageThen(matches: Matcher, a: Db, own: seq<Rule>, b: Db, c: Db)
    requires TriageBy(matches, a, own, b) && SameTriage(b.assets.rows, c.assets.rows)
    ensures TriageBy(matches, a, own, c)
  {
  }

  lemma GroupLinkTriage(matches: Matcher, db0: Db, assettype: string, source: Source, rules: seq<Rule>,
                        calls: nat, db: Db)
    requires Distinct(db0.groups.rows) && PartGroupLink(matches, db0, assettype, source, rules, calls, db)
    ensures SameTriage(db0.assets.rows, db.assets.rows)
    ensures db.groups == db0.groups && db.owners == db0.owners
  {
  }

  lemma LinkedTriage(matches: Matcher, db0: Db, assettype: string, source: Source, rules: seq<Rule>)
    requires Distinct(db0.groups.rows)
    ensures SameTriage(db0.assets.rows, AfterGroupLink(matches, db0, assettype, source, rules).assets.rows)
  {
  }

  lemma OwnedTriage(matches: Matcher, db0: Db, own: seq<Rule>)
    requires Distinct(db0.owners.rows)
    ensures TriageBy(matches, db0, own, AfterOwnerLink(matches, db0, own))
  {
  }

  lemma OwnerLinkTriage(matches: Matcher, db0: Db, own: seq<Rule>, at: OwnershipProgress, db: Db)
    requires Distinct(db0.groups.rows) && Distinct(db0.owners.rows)
    requires PartOwnerLink(matches, db0, own, at, db)
    ensures TriageBy(matches, db0, ReachedIn(own, InOwnership(at)), db)
    ensures db.groups == db0.groups && db.owners == db0.owners
  {
    match at {
      case NotReset =>
        TriageKept(matches, db0, db);
      case Owned(n, half) =>
        var reached := own[..n];
        var mid := AfterOwnerLink(matches, db0, reached);
        OwnedTriage(matches, db0, reached);
        if half {
          OwnerHalfTriage(matches, mid, own[n]);
          TriageThen(matches, db0, reached, mid, db);
        }
    }
  }

  lemma OwnerHalfTriage(matches: Matcher, db: Db, r: Rule)
    requires Distinct(db.groups.rows) && Distinct(db.owners.rows)
    ensures SameTriage(db.assets.rows, OwnerHalf(matches, db, r).assets.rows)
  {
  }
}
