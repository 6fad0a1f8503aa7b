/** Runs of the whole service: submissions, interlink runs, cache writes and the clock, in
    any order, and the handlers as steps of such a run. */
module ServiceRuns {
  import opened Sequences
  import opened Results
  import opened Rules
  import opened ServiceLib
  import opened Database
  import opened RuleParser
  import opened InterlinkSpec
  import opened InterlinkPartial
  import opened InterlinkTheorems
  import opened Interlink
  import opened InterlinkManager
  import opened Store
  import opened RiskCache

  datatype World = World(db: Db, now: int)

  datatype Action =
    | Tick
    | AddIndicator(s: Submission)
    | AddAssetOnly(s: Submission)                     // the insert of the indicator failed
    | AddRRA(row: RRARow)
    | RunInterlink(rules: seq<Rule>)
    | AbortInterlink                                  // undone, but it may have used up ids
    | CutInterlink(rules: seq<Rule>, at: Progress)    // Begin failed, and the call reached here
    | WriteCache(rraid: nat, risk: Risk)

  /** One atomic step of the service; the clock never goes back. */
  ghost predicate Next(matches: Matcher, w: World, a: Action, w': World)
    requires Consistent(w.db)
  {
    && (if a.Tick? then w.now <= w'.now else w.now == w'.now)
    && match a
       case Tick => w'.db == w.db
       case AddIndicator(s) => GoodSubmission(s) && !Duplicate(w.db, s) && w'.db == AfterIndicator(w.db, s)
       case AddAssetOnly(s) => w'.db == WithAsset(w.db, s)
       case AddRRA(row) => Normalised(row) && w'.db == AfterRRA(w.db, row)
       case RunInterlink(rules) => IsRun(matches, w.db, rules, w'.db)
       case AbortInterlink => SameRows(w'.db, w.db) && Later(w.db, w'.db)
       case CutInterlink(rules, at) => Unfinished(matches, w.db, rules, at, w'.db)
       case WriteCache(rraid, risk) =>
         RiskOf(w.db, rraid, risk) &&
         w'.db == w.db.(risks := w.db.risks + [RiskRow(rraid, w.now, risk)])
  }

  /** A run of the service from a state that satisfies the schema. Next says something of
      such states only; that no other is reached is proved. */
  ghost predicate IsExecution(matches: Matcher, ws: seq<World>, actions: seq<Action>) {
    && |ws| == |actions| + 1
    && Consistent(ws[0].db)
    && forall i {:trigger Step(matches, ws, actions, i)} :: 0 <= i < |actions| ==> Step(matches, ws, actions, i)
  }

  ghost predicate Step(matches: Matcher, ws: seq<World>, actions: seq<Action>, i: nat)
    requires i < |actions| < |ws|
  {
    Consistent(ws[i].db) ==> Next(matches, ws[i], actions[i], ws[i + 1])
  }

  lemma ExecutionPrefix(matches: Matcher, ws: seq<World>, actions: seq<Action>)
    requires IsExecution(matches, ws, actions) && |actions| > 0
    ensures IsExecution(matches, ws[..|actions|], actions[..|actions| - 1])
  {
    var before, done := ws[..|actions|], actions[..|actions| - 1];
    forall i | 0 <= i < |done| ensures Step(matches, before, done, i) {
      assert Step(matches, ws, actions, i);
    }
  }

  /** All labels in the tables are known ones, because validation lets no others in. */
  ghost predicate Sound(db: Db) {
    && (forall id :: id in db.rras.rows ==> Normalised(db.rras.rows[id]))
    && (forall i :: i in db.indicators.rows ==> IsLabel(db.indicators.rows[i].likelihood))
  }

  /** Every step keeps the whole schema. */
  lemma NextKeepsSchema(matches: Matcher, w: World, a: Action, w': World)
    requires Consistent(w.db) && Next(matches, w, a, w')
    ensures Consistent(w'.db)
  {
    match a
    case AddIndicator(s) => AfterIndicatorKeeps(w.db, s);
    case AddAssetOnly(s) => WithAssetKeeps(w.db, s);
    case AddRRA(row) => AfterRRAKeeps(w.db, row);
    case RunInterlink(rules) => RunKeepsSchema(matches, w.db, rules, w'.db);
    case CutInterlink(rules, at) => UnfinishedKeepsSchema(matches, w.db, rules, at, w'.db);
    case WriteCache(rraid, risk) =>
      CalculableIsComputable(w.db, rraid, risk.rra);
      InsertRiskKeeps(w.db, RiskRow(rraid, w.now, risk));
    case _ =>
  }

  lemma NextKeepsSound(matches: Matcher, w: World, a: Action, w': World)
    requires Consistent(w.db) && Next(matches, w, a, w') && Sound(w.db)
    ensures Sound(w'.db)
  {
    if a.CutInterlink? {
      UnfinishedFrame(matches, w.db, a.rules, a.at, w'.db);
    }
  }

  lemma StepAt(matches: Matcher, ws: seq<World>, actions: seq<Action>, i: nat)
    requires IsExecution(matches, ws, actions) && i < |actions| && Consistent(ws[i].db)
    ensures Next(matches, ws[i], actions[i], ws[i + 1])
  {
    assert Step(matches, ws, actions, i);
  }

  /** The schema holds in every reachable state. */
  lemma {:induction false} AlwaysConsistent(matches: Matcher, ws: seq<World>, actions: seq<Action>, i: nat)
    requires IsExecution(matches, ws, actions) && i < |ws|
    ensures Consistent(ws[i].db)
  {
    if i > 0 {
      AlwaysConsistent(matches, ws, actions, i - 1);
      StepAt(matches, ws, actions, i - 1);
      NextKeepsSchema(matches, ws[i - 1], actions[i - 1], ws[i]);
    }
  }

  /** All stored labels are known in every state reached from one where they are. */
  lemma {:induction false} AlwaysSound(matches: Matcher, ws: seq<World>, actions: seq<Action>, i: nat)
    requires IsExecution(matches, ws, actions) && Sound(ws[0].db) && i < |ws|
    ensures Sound(ws[i].db)
  {
    if i > 0 {
      AlwaysSound(matches, ws, actions, i - 1);
      AlwaysConsistent(matches, ws, actions, i - 1);
      StepAt(matches, ws, actions, i - 1);
      NextKeepsSound(matches, ws[i - 1], actions[i - 1], ws[i]);
    }
  }

  /* ---------- the handlers take such steps ---------- */

  /** Whatever the submission, and whichever of its calls fail, it is one step. */
  method ServeIndicator(op: OpContext, t: TextOps, raw: RawIndicator, ghost now: int)
    returns (reply: Reply, ghost a: Action)
    requires op.Valid()
    modifies op`db, op`step, op`seen, raw`likelihood
    ensures op.Valid() && Next(op.matches, World(old(op.db), now), a, World(op.db, now))
    ensures reply.Accepted? ==> a.AddIndicator?
  {
    ghost var db0 := op.db;
    reply := SubmitIndicator(op, t, raw);
    ghost var s := Submission(raw.assettype, raw.name, raw.zone, raw.timestamp, raw.source, raw.likelihood);
    a := if reply.Accepted? then AddIndicator(s) else if op.db == db0 then Tick else AddAssetOnly(s);
  }

  method ServeRRA(op: OpContext, t: TextOps, raw: RawRRA, ghost now: int) returns (reply: Reply, ghost a: Action)
    requires op.Valid()
    modifies op`db, op`step, op`seen, raw`details
    ensures op.Valid() && Next(op.matches, World(old(op.db), now), a, World(op.db, now))
    ensures reply.Accepted? ==> a.AddRRA?
  {
    ghost var row := ToRow(ValidateDetails(t, raw.details).0, raw.lastModified);
    reply := UpdateRRA(op, t, raw);
    a := if reply.Accepted? then AddRRA(row) else Tick;
  }

  method ServeRules(op: OpContext, rules: seq<Rule>, ghost now: int) returns (out: Outcome, ghost a: Action)
    requires op.Valid() && op.saved.None?
    modifies op
    ensures op.Valid() && op.saved.None?
    ensures Next(op.matches, World(old(op.db), now), a, World(op.db, now))
    ensures a == RunInterlink(rules) || a == AbortInterlink || (a.CutInterlink? && a.rules == rules)
    ensures out.Committed? <==> a.RunInterlink?
  {
    ghost var begun, at := !op.fails(op.step), InGroups(Adding(0));
    out, at := RunRules(op, rules);
    a := if out.Committed? then RunInterlink(rules) else if begun then AbortInterlink else CutInterlink(rules, at);
  }

  /** A pass of the rule manager over a rule file. */
  method ServeFile(op: OpContext, lines: seq<string>, ghost now: int) returns (out: Option<Outcome>, ghost a: Action)
    requires op.Valid() && op.saved.None?
    modifies op
    ensures op.Valid() && op.saved.None?
    ensures Next(op.matches, World(old(op.db), now), a, World(op.db, now))
    ensures out == Some(Committed) <==> a.RunInterlink?
    ensures a.RunInterlink? ==> Load(lines).Loaded? && a.rules == Load(lines).rules
  {
    ghost var begun, at := !op.fails(op.step), InGroups(Adding(0));
    out, at := RunFile(op, lines);
    a := if out.None? then Tick
         else if out.value.Committed? then RunInterlink(Load(lines).rules)
         else if begun then AbortInterlink
         else CutInterlink(Load(lines).rules, at);
  }

  method ServeRisk(op: OpContext, rraid: nat, now: int) returns (ok: bool, ghost a: Action)
    requires op.Valid()
    modifies op`db, op`step, op`seen
    ensures op.Valid() && Next(op.matches, World(old(op.db), now), a, World(op.db, now))
    ensures ok <==> a.WriteCache?
  {
    var row;
    ok, row := CacheRisk(op, rraid, now);
    a := if ok then WriteCache(rraid, row.value.risk) else Tick;
  }

  /** A sweep is a run of cache writes and clock ticks. */
  method ServeSweep(op: OpContext, every: int, start: int)
    returns (ok: bool, end: int, ghost ws: seq<World>, ghost actions: seq<Action>)
    requires op.Valid()
    modifies op`db, op`step, op`seen
    ensures op.Valid() && IsExecution(op.matches, ws, actions)
    ensures ws[0] == World(old(op.db), start) && ws[|actions|] == World(op.db, end)
  {
    ghost var db0 := op.db;
    var added;
    ok, end, added := Sweep(op, every, start);
    ws, actions := SweepIsExecution(op.matches, db0, added, start, end);
  }

  lemma {:induction false} SweepIsExecution(matches: Matcher, db: Db, added: seq<RiskRow>, start: int, end: int)
    returns (ws: seq<World>, actions: seq<Action>)
    requires Consistent(db) && Swept(db, added, start, end) && start <= end
    ensures IsExecution(matches, ws, actions) && Consistent(ws[|actions|].db)
    ensures ws[0] == World(db, start) && ws[|actions|] == World(db.(risks := db.risks + added), end)
    decreases |added|
  {
    if added == [] {
      ws, actions := OneTick(matches, db, start, end);
      assert db.risks + added == db.risks;
    } else {
      var front, row := added[..|added| - 1], added[|added| - 1];
      SweptFront(db, added, start, end);
      ws, actions := SweepIsExecution(matches, db, front, start, row.timestamp);
      ws, actions := WriteLast(matches, ws, actions, db, added, start, end);
      ws, actions := TickLast(matches, ws, actions, end);
    }
  }

  lemma OneTick(matches: Matcher, db: Db, start: int, end: int) returns (ws: seq<World>, actions: seq<Action>)
    requires Consistent(db) && start <= end
    ensures IsExecution(matches, ws, actions) && Consistent(ws[|actions|].db)
    ensures ws[0] == World(db, start) && ws[|actions|] == World(db, end)
  {
    ws, actions := [World(db, start), World(db, end)], [Tick];
  }

  lemma SweptFront(db: Db, added: seq<RiskRow>, start: int, end: int)
    requires Swept(db, added, start, end) && added != []
    ensures var front, row := added[..|added| - 1], added[|added| - 1];
      Swept(db, front, start, row.timestamp) && start <= row.timestamp <= end
  {
    var n := |added| - 1;
    var front := added[..n];
    forall k | 0 <= k < n ensures IsRefresh(db, front, k) {
      assert IsRefresh(db, added, k);
    }
  }

  lemma WriteIsNext(matches: Matcher, w: World, row: RiskRow, w': World)
    requires Consistent(w.db) && RiskOf(w.db, row.rraid, row.risk) && w.now == row.timestamp
    requires w' == World(w.db.(risks := w.db.risks + [row]), w.now)
    ensures Next(matches, w, WriteCache(row.rraid, row.risk), w')
  {
  }

  lemma RefreshFrame(db: Db, added: seq<RiskRow>, start: int, end: int, e: Db, row: RiskRow)
    requires Swept(db, added, start, end) && added != [] && row == added[|added| - 1]
    requires e == db.(risks := e.risks)
    ensures RiskOf(e, row.rraid, row.risk)
  {
    assert IsRefresh(db, added, |added| - 1);
    RiskFrame(db, e.risks, row.rraid, row.risk);
  }

  lemma RefreshIsNext(matches: Matcher, db: Db, added: seq<RiskRow>, start: int, end: int, w: World, row: RiskRow,
                      w': World)
    requires Swept(db, added, start, end) && added != [] && row == added[|added| - 1]
    requires w == World(db.(risks := db.risks + added[..|added| - 1]), row.timestamp) && Consistent(w.db)
    requires w' == World(w.db.(risks := db.risks + added), w.now)
    ensures Next(matches, w, WriteCache(row.rraid, row.risk), w')
  {
    AppendedLast(db.risks, added);
    RefreshFrame(db, added, start, end, w.db, row);
    WriteIsNext(matches, w, row, w');
  }

  /** One more step: the last row is written at its time. */
  lemma WriteLast(matches: Matcher, ws: seq<World>, actions: seq<Action>, db: Db, added: seq<RiskRow>,
                  start: int, end: int)
    returns (longer: seq<World>, more: seq<Action>)
    requires IsExecution(matches, ws, actions) && Consistent(ws[|actions|].db)
    requires Swept(db, added, start, end) && added != []
    requires ws[|actions|] == World(db.(risks := db.risks + added[..|added| - 1]), added[|added| - 1].timestamp)
    ensures IsExecution(matches, longer, more) && longer[0] == ws[0] && Consistent(longer[|more|].db)
    ensures longer[|more|] == World(db.(risks := db.risks + added), added[|added| - 1].timestamp)
  {
    var row, w := added[|added| - 1], ws[|actions|];
    var w' := World(w.db.(risks := db.risks + added), w.now);
    RefreshIsNext(matches, db, added, start, end, w, row, w');
    longer, more := OneMore(matches, ws, actions, w, WriteCache(row.rraid, row.risk), w');
  }

  /** And one more: time passes. */
  lemma TickLast(matches: Matcher, ws: seq<World>, actions: seq<Action>, end: int)
    returns (longer: seq<World>, more: seq<Action>)
    requires IsExecution(matches, ws, actions) && Consistent(ws[|actions|].db) && ws[|actions|].now <= end
    ensures IsExecution(matches, longer, more) && longer[0] == ws[0] && Consistent(longer[|more|].db)
    ensures longer[|more|] == World(ws[|actions|].db, end)
  {
    longer, more := OneMore(matches, ws, actions, ws[|actions|], Tick, World(ws[|actions|].db, end));
  }

  lemma OneMore(matches: Matcher, ws: seq<World>, actions: seq<Action>, w: World, a: Action, w': World)
    returns (longer: seq<World>, more: seq<Action>)
    requires IsExecution(matches, ws, actions) && ws[|actions|] == w && Consistent(w.db)
    requires Next(matches, w, a, w')
    ensures longer == ws + [w'] && more == actions + [a]
    ensures IsExecution(matches, longer, more) && Consistent(w'.db)
  {
    longer, more := ws + [w'], actions + [a];
    NextKeepsSchema(matches, w, a, w');
    forall i | 0 <= i < |more| ensures Step(matches, longer, more, i) {
      assert i < |actions| ==> Step(matches, ws, actions, i);
    }
  }
}
