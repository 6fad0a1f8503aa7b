/** From the text of a rule file to the database. */
module InterlinkManager {
  import opened Results
  import opened Rules
  import opened RuleParser
  import opened Database
  import opened InterlinkSpec
  import opened InterlinkPartial
  import opened InterlinkTheorems
  import opened Interlink

  /** Load the file and, if it is good as a whole, run its rules. */
  method RunFile(op: OpContext, lines: seq<string>) returns (out: Option<Outcome>, ghost at: Progress)
    requires op.Valid() && op.saved.None?
    modifies op
    ensures op.Valid() && op.saved.None? && Later(old(op.db), op.db)
    ensures out.Some? <==> Load(lines).Loaded?
    ensures out.None? ==> op.db == old(op.db) && op.step == old(op.step)
    ensures out == Some(Committed) ==> IsRun(op.matches, old(op.db), Load(lines).rules, op.db)
    ensures !op.fails(old(op.step)) && out != Some(Committed) ==> SameRows(op.db, old(op.db))
    ensures out.Some? && out != Some(Committed) && op.fails(old(op.step)) ==>
      Unfinished(op.matches, old(op.db), Load(lines).rules, at, op.db)
  {
    var loaded := LoadRules(lines);
    if !loaded.Loaded? {
      return None, InGroups(Adding(0));
    }
    var outcome;
    outcome, at := RunRules(op, loaded.rules);
    out := Some(outcome);
  }

  /** Editing the comments of a rule file does not change what it does to the database. */
  lemma CommentsIrrelevant(matches: Matcher, pre: Db, a: seq<string>, line: string, b: seq<string>, post: Db, post': Db)
    requires Ignorable(line) && Load(a + b).Loaded?
    requires IsRun(matches, pre, Load(a + b).rules, post)
    ensures Load(a + [line] + b).Loaded?
    ensures IsRun(matches, pre, Load(a + [line] + b).rules, post') ==> SameTables(post, post')
  {
    IgnoresBlankAndComment(a, line, b);
    if IsRun(matches, pre, Load(a + [line] + b).rules, post') {
      RunDeterministic(matches, pre, Load(a + b).rules, post, post');
    }
  }

  /** Running the printed form of a rule list, with the rules of different types in any
      interleaving, is running the list. */
  lemma PrintedFileRuns(matches: Matcher, pre: Db, rules: seq<Rule>, rules': seq<Rule>, post: Db)
    requires (forall r :: r in rules ==> Printable(r)) && (forall r :: r in rules' ==> Printable(r))
    requires forall t: RuleType :: t != WebsiteAdd ==> OfType(rules, t) == OfType(rules', t)
    requires IsRun(matches, pre, rules, post)
    ensures Load(PrintAll(rules')).Loaded? && IsRun(matches, pre, Load(PrintAll(rules')).rules, post)
  {
    LoadPrinted(rules');
    InterleavingIrrelevant(matches, pre, rules, rules', post);
  }
}
