/** What holds over whole runs of the service with interlink runs of different rule files,
    committed, aborted and unfinished, among submissions and other steps. */
module InterlinkHistory {
  import opened Rules
  import opened Tables
  import opened Database
  import opened InterlinkSpec
  import opened InterlinkPartial
  import opened ServiceRuns
  import opened RunInFields
  import opened Results

  /* ---------- triage overrides ---------- */

  /** The ownership rules an action applies, in order: all of a committed run, those reached
      by one that stopped without a transaction. */
  function Owning(a: Action): seq<Rule> {
    match a
    case RunInterlink(rules) => OfType(rules, HostOwnership)
    case CutInterlink(rules, at) => Reached(rules, at)
    case _ => []
  }

  /** The action is a run in which some ownership rule that was reached matched the host. */
  predicate Matched(matches: Matcher, a: Action, name: string) {
    LastMatch(matches, Host, Owning(a), name) >= 0
  }

  /** The most recent run in which some ownership rule matched the host, or -1. */
  function LastMatched(matches: Matcher, actions: seq<Action>, name: string): (k: int)
    ensures -1 <= k < |actions|
    ensures k >= 0 ==> Matched(matches, actions[k], name)
    ensures forall j :: k < j < |actions| ==> !Matched(matches, actions[j], name)
  {
    if actions == [] then -1
    else if Matched(matches, actions[|actions| - 1], name) then |actions| - 1
    else LastMatched(matches, actions[..|actions| - 1], name)
  }

  lemma IdentityKept(matches: Matcher, w: World, a: Action, w': World, id: nat)
    requires Consistent(w.db) && Next(matches, w, a, w') && id in w.db.assets.rows
    ensures id in w'.db.assets.rows
    ensures var x, y := w.db.assets.rows[id], w'.db.assets.rows[id];
      && y.name == x.name && y.assettype == x.assettype
      && (x.assettype == HOSTNAME ==> y.triage == TriageFor(matches, Owning(a), x.name, x.triage))
  {
    if a.CutInterlink? {
      UnfinishedStops(matches, w.db, a.rules, a.at, w'.db);
    }
  }

  /** Over any run of the service, a hostname's triage override is that of the last matching
      rule of the most recent interlink run in which any ownership rule matched it; if there
      was none it is the original one. An unfinished run counts with the ownership rules it
      reached. */
  lemma {:induction false} TriageDecided(matches: Matcher, ws: seq<World>, actions: seq<Action>, id: nat)
    requires IsExecution(matches, ws, actions)
    requires id in ws[0].db.assets.rows && ws[0].db.assets.rows[id].assettype == HOSTNAME
    ensures var first, last := ws[0].db.assets.rows, ws[|actions|].db.assets.rows;
      && id in last && last[id].assettype == HOSTNAME && last[id].name == first[id].name
      && var k := LastMatched(matches, actions, last[id].name);
         last[id].triage ==
           if k < 0 then first[id].triage
           else
             var own := Owning(actions[k]);
             var r := own[LastMatch(matches, Host, own, last[id].name)];
             if r.destTriageOverride == "" then None else Some(r.destTriageOverride)
  {
    var n := |actions|;
    if n > 0 {
      ExecutionPrefix(matches, ws, actions);
      TriageDecided(matches, ws[..n], actions[..n - 1], id);
      AlwaysConsistent(matches, ws, actions, n - 1);
      StepAt(matches, ws, actions, n - 1);
      IdentityKept(matches, ws[n - 1], actions[n - 1], ws[n], id);
    }
  }

  /** The same in the fields of the rules: the last rule of the last run with a rule whose host
      pattern matches decides, and if no run has one the override is the original one. */
  lemma TriageByFields(matches: Matcher, ws: seq<World>, actions: seq<Action>, id: nat)
    requires IsExecution(matches, ws, actions)
    requires id in ws[0].db.assets.rows && ws[0].db.assets.rows[id].assettype == "hostname"
    ensures id in ws[|actions|].db.assets.rows
    ensures var name, triage := ws[0].db.assets.rows[id].name, ws[|actions|].db.assets.rows[id].triage;
      || (triage == ws[0].db.assets.rows[id].triage && NoneMatches(matches, actions, 0, name))
      || exists k, m :: 0 <= k < |actions| && 0 <= m < |Owning(actions[k])|
           && NoneMatches(matches, actions, k + 1, name)
           && matches(Owning(actions[k])[m].srcHostMatch, name)
           && (forall n :: m < n < |Owning(actions[k])| ==> !matches(Owning(actions[k])[n].srcHostMatch, name))
           && triage == if Owning(actions[k])[m].destTriageOverride == "" then None
                        else Some(Owning(actions[k])[m].destTriageOverride)
  {
    TriageDecided(matches, ws, actions, id);
    var name := ws[0].db.assets.rows[id].name;
    var k := LastMatched(matches, actions, name);
    forall j, n | k < j < |actions| && 0 <= n < |Owning(actions[j])|
      ensures !matches(Owning(actions[j])[n].srcHostMatch, name)
    {
      assert !Matched(matches, actions[j], name);
    }
    if k >= 0 {
      var m := LastMatch(matches, Host, Owning(actions[k]), name);
      assert matches(Owning(actions[k])[m].srcHostMatch, name);
    }
  }

  /** From action k on, no run has an ownership rule it reached whose host pattern matches. */
  ghost predicate NoneMatches(matches: Matcher, actions: seq<Action>, k: nat, name: string) {
    forall j, n :: k <= j < |actions| && 0 <= n < |Owning(actions[j])| ==>
      !matches(Owning(actions[j])[n].srcHostMatch, name)
  }

  /** The rules a committed run applies are the ownership rules of its file. */
  lemma OwningMeans(rules: seq<Rule>, r: Rule)
    ensures multiset(Owning(RunInterlink(rules)))[r] == if r.ruletype == HostOwnership then multiset(rules)[r] else 0
  {
    OfTypeCounts(rules, HostOwnership, r);
  }

  /* ---------- ids of groups and owners ---------- */

  /** One table over time. */
  ghost predicate Evolving<V>(ts: seq<Table<V>>) {
    && (forall i :: 0 <= i < |ts| ==> Serial(ts[i]))
    && forall i :: 0 <= i < |ts| - 1 ==> Evolves(ts[i], ts[i + 1])
  }

  /** An id below the sequence that is not in use is never used again. */
  lemma {:induction false} NeverReused<V>(ts: seq<Table<V>>, i: nat, j: nat, id: nat)
    requires Evolving(ts) && i <= j < |ts|
    requires id < ts[i].next && id !in ts[i].rows
    ensures id < ts[j].next && id !in ts[j].rows
    decreases j - i
  {
    if i < j {
      assert Evolves(ts[i], ts[i + 1]);
      NeverReused(ts, i + 1, j, id);
    }
  }

  /** Over all the time an id denotes one value only: whenever it is in use it has the same
      value, and once it is removed it does not come back. */
  lemma {:induction false} IdDenotesOne<V>(ts: seq<Table<V>>, i: nat, j: nat, id: nat)
    requires Evolving(ts) && i <= j < |ts|
    requires id in ts[i].rows && id in ts[j].rows
    ensures ts[i].rows[id] == ts[j].rows[id]
    ensures forall k :: i <= k <= j ==> id in ts[k].rows
    decreases j - i
  {
    if i < j {
      assert Evolves(ts[i], ts[i + 1]);
      if id !in ts[i + 1].rows {
        NeverReused(ts, i + 1, j, id);
      }
      IdDenotesOne(ts, i + 1, j, id);
    }
  }

  function GroupTables(ws: seq<World>): seq<Table<string>> {
    seq(|ws|, i requires 0 <= i < |ws| => ws[i].db.groups)
  }

  function OwnerTables(ws: seq<World>): seq<Table<OwnerRow>> {
    seq(|ws|, i requires 0 <= i < |ws| => ws[i].db.owners)
  }

  lemma StepEvolves(matches: Matcher, w: World, a: Action, w': World)
    requires Consistent(w.db) && Next(matches, w, a, w')
    ensures Evolves(w.db.groups, w'.db.groups) && Evolves(w.db.owners, w'.db.owners)
  {
    if a.RunInterlink? {
      ReconcileEvolves(w.db.groups, GroupNames(OfType(a.rules, AssetGroupAdd)), 0, {});
      ReconcileEvolves(w.db.owners, OwnerRows(OfType(a.rules, OwnerAdd)), 0, {});
    } else if a.CutInterlink? {
      UnfinishedStops(matches, w.db, a.rules, a.at, w'.db);
    }
  }

  /** Whatever the service does, ids of groups and owners are never given to another: neither
      committed nor aborted nor unfinished runs reuse one. */
  lemma IdsEvolve(matches: Matcher, ws: seq<World>, actions: seq<Action>)
    requires IsExecution(matches, ws, actions)
    ensures Evolving(GroupTables(ws)) && Evolving(OwnerTables(ws))
  {
    forall i | 0 <= i < |ws| ensures Serial(ws[i].db.groups) && Serial(ws[i].db.owners) {
      AlwaysConsistent(matches, ws, actions, i);
    }
    forall i | 0 <= i < |actions|
      ensures Evolves(ws[i].db.groups, ws[i + 1].db.groups) && Evolves(ws[i].db.owners, ws[i + 1].db.owners)
    {
      AlwaysConsistent(matches, ws, actions, i);
      StepAt(matches, ws, actions, i);
      StepEvolves(matches, ws[i], actions[i], ws[i + 1]);
    }
  }

  /** Over any run of the service an id denotes one group and one owner only. */
  lemma IdsDenoteOne(matches: Matcher, ws: seq<World>, actions: seq<Action>, i: nat, j: nat, id: nat)
    requires IsExecution(matches, ws, actions) && i <= j < |ws|
    ensures var a, b := ws[i].db.groups.rows, ws[j].db.groups.rows;
      id in a && id in b ==> a[id] == b[id] && forall k :: i <= k <= j ==> id in ws[k].db.groups.rows
    ensures var a, b := ws[i].db.owners.rows, ws[j].db.owners.rows;
      id in a && id in b ==> a[id] == b[id] && forall k :: i <= k <= j ==> id in ws[k].db.owners.rows
  {
    var groups, owners := GroupTables(ws), OwnerTables(ws);
    IdsEvolve(matches, ws, actions);
    if id in groups[i].rows && id in groups[j].rows {
      IdDenotesOne(groups, i, j, id);
      assert forall k :: i <= k <= j ==> groups[k] == ws[k].db.groups;
    }
    if id in owners[i].rows && id in owners[j].rows {
      IdDenotesOne(owners, i, j, id);
      assert forall k :: i <= k <= j ==> owners[k] == ws[k].db.owners;
    }
  }

  /** New ids are unused ones of the whole run: once free and below the sequence, an id of a
      group or an owner stays free. */
  lemma IdsNeverReused(matches: Matcher, ws: seq<World>, actions: seq<Action>, i: nat, j: nat, id: nat)
    requires IsExecution(matches, ws, actions) && i <= j < |ws|
    ensures id < ws[i].db.groups.next && id !in ws[i].db.groups.rows ==> id !in ws[j].db.groups.rows
    ensures id < ws[i].db.owners.next && id !in ws[i].db.owners.rows ==> id !in ws[j].db.owners.rows
  {
    var groups, owners := GroupTables(ws), OwnerTables(ws);
    IdsEvolve(matches, ws, actions);
    if id < groups[i].next && id !in groups[i].rows {
      NeverReused(groups, i, j, id);
    }
    if id < owners[i].next && id !in owners[i].rows {
      NeverReused(owners, i, j, id);
    }
  }
}
