/** The line parser of the interlink rule file. */
module RuleParser {
  import opened Rules

  /* ---------- splitting a line at single spaces ---------- */

  function Split(s: string): (tokens: seq<string>)
    ensures |tokens| > 0
  {
    if s == "" then [""]
    else if s[0] == ' ' then [""] + Split(s[1..])
    else
      var rest := Split(s[1..]);
      [[s[0]] + rest[0]] + rest[1..]
  }

  function Join(tokens: seq<string>): string
    requires |tokens| > 0
  {
    if |tokens| == 1 then tokens[0] else tokens[0] + " " + Join(tokens[1..])
  }

  lemma {:induction false} SplitPrefix(t: string, s: string)
    requires ' ' !in t
    ensures Split(t + s) == [t + Split(s)[0]] + Split(s)[1..]
  {
    if t == "" {
      assert t + s == s;
      assert t + Split(s)[0] == Split(s)[0];
    } else {
      assert (t + s)[1..] == t[1..] + s;
      SplitPrefix(t[1..], s);
      assert [t[0]] + (t[1..] + Split(s)[0]) == t + Split(s)[0];
    }
  }

  lemma {:induction false} SplitJoin(tokens: seq<string>)
    requires |tokens| > 0
    requires forall t :: t in tokens ==> ' ' !in t
    ensures Split(Join(tokens)) == tokens
  {
    var t := tokens[0];
    if |tokens| == 1 {
      SplitPrefix(t, "");
      assert t + "" == t;
    } else {
      var rest := Join(tokens[1..]);
      SplitJoin(tokens[1..]);
      SplitPrefix(t, " " + rest);
      assert t + " " + rest == t + (" " + rest);
      assert (" " + rest)[1..] == rest;
      assert t + "" == t;
    }
  }

  lemma {:induction false} JoinSplit(s: string)
    ensures Join(Split(s)) == s
    ensures forall t :: t in Split(s) ==> ' ' !in t
  {
    if s != "" {
      JoinSplit(s[1..]);
    }
  }

  /* ---------- one line ---------- */

  datatype ParseError = NotEnoughArguments | SyntaxError

  /** What one line does to the loader. Crash is the index panic on an empty first token. */
  datatype LineResult = Skip | Add(rule: Rule) | Reject(error: ParseError) | Crash

  predicate IsAssetGroupAdd(t: seq<string>) {
    |t| == 3 && t[0] == "add" && t[1] == "assetgroup"
  }

  predicate IsOwnerAdd(t: seq<string>) {
    |t| == 4 && t[0] == "add" && t[1] == "owner"
  }

  predicate IsWebsiteAdd(t: seq<string>) {
    |t| == 3 && t[0] == "add" && t[1] == "website"
  }

  predicate IsServiceLink(t: seq<string>) {
    |t| == 6 && t[0] == "assetgroup" && t[1] == "matches" && t[3] == "link" && t[4] == "service"
  }

  predicate IsHostLink(t: seq<string>) {
    |t| == 6 && t[0] == "host" && t[1] == "matches" && t[3] == "link" && t[4] == "assetgroup"
  }

  predicate IsOwnership(t: seq<string>) {
    |t| >= 6 && t[0] == "host" && t[1] == "matches" && t[3] == "ownership"
  }

  predicate IsWebsiteLink(t: seq<string>) {
    |t| == 6 && t[0] == "website" && t[1] == "matches" && t[3] == "link" && t[4] == "assetgroup"
  }

  function ParseTokens(t: seq<string>): LineResult {
    if |t| < 2 then Reject(NotEnoughArguments)
    else if IsAssetGroupAdd(t) then
      Add(NewRule(AssetGroupAdd).(destAssetGroupMatch := t[2]))
    else if IsOwnerAdd(t) then
      Add(NewRule(OwnerAdd).(destOperator := t[2], destTeam := t[3]))
    else if IsWebsiteAdd(t) then
      Add(NewRule(WebsiteAdd).(destWebsiteMatch := t[2]))
    else if IsServiceLink(t) then
      Add(NewRule(AssetGroupLinkService).(srcAssetGroupMatch := t[2], destServiceMatch := t[5]))
    else if IsHostLink(t) then
      Add(NewRule(HostLinkAssetGroup).(srcHostMatch := t[2], destAssetGroupMatch := t[5]))
    else if IsOwnership(t) then
      Add(NewRule(HostOwnership).(srcHostMatch := t[2], destOperator := t[4], destTeam := t[5],
                                  destTriageOverride := if |t| == 7 then t[6] else ""))
    else if IsWebsiteLink(t) then
      Add(NewRule(WebsiteLinkAssetGroup).(srcWebsiteMatch := t[2], destAssetGroupMatch := t[5]))
    else Reject(SyntaxError)
  }

  function ParseLine(line: string): LineResult {
    if line == "" then Skip
    else
      var tokens := Split(line);
      if tokens[0] == "" then Crash
      else if tokens[0][0] == '#' then Skip
      else ParseTokens(tokens)
  }

  /* ---------- the whole file ---------- */

  datatype LoadResult =
    | Loaded(rules: seq<Rule>)
    | Failed(rules: seq<Rule>, error: ParseError)
    | Panicked

  function Prepend(rules: seq<Rule>, rest: LoadResult): LoadResult {
    match rest
    case Loaded(more) => Loaded(rules + more)
    case Failed(more, e) => Failed(rules + more, e)
    case Panicked => Panicked
  }

  function Load(lines: seq<string>): LoadResult {
    if lines == [] then Loaded([])
    else
      match ParseLine(lines[0])
      case Skip => Load(lines[1..])
      case Add(r) => Prepend([r], Load(lines[1..]))
      case Reject(e) => Failed([], e)
      case Crash => Panicked
  }

  lemma PrependTwice(a: seq<Rule>, b: seq<Rule>, rest: LoadResult)
    ensures Prepend(a, Prepend(b, rest)) == Prepend(a + b, rest)
  {
  }

  method LoadRules(lines: seq<string>) returns (result: LoadResult)
    ensures result == Load(lines)
  {
    var rules: seq<Rule> := [];
    for i := 0 to |lines|
      invariant Load(lines) == Prepend(rules, Load(lines[i..]))
    {
      var buf := lines[i];
      assert lines[i..][1..] == lines[i + 1..];
      if |buf| == 0 {
        continue;
      }
      var tokens := Split(buf);
      if tokens[0] == "" {
        return Panicked;
      }
      if tokens[0][0] == '#' {
        continue;
      }
      var parsed := ParseTokens(tokens);
      if parsed.Reject? {
        assert rules + [] == rules;
        return Failed(rules, parsed.error);
      }
      PrependTwice(rules, [parsed.rule], Load(lines[i + 1..]));
      rules := rules + [parsed.rule];
    }
    assert rules + [] == rules;
    return Loaded(rules);
  }

  /** Loading a concatenation: the second part is read exactly when the first is good,
      and otherwise the first part alone decides the result. */
  lemma {:induction false} LoadConcat(a: seq<string>, b: seq<string>)
    ensures Load(a + b) == if Load(a).Loaded? then Prepend(Load(a).rules, Load(b)) else Load(a)
  {
    if a == [] {
      assert a + b == b;
      PrependTwice([], [], Load(b));
      if !Load(b).Panicked? {
        assert [] + Load(b).rules == Load(b).rules;
      }
    } else {
      LoadConcat(a[1..], b);
      assert (a + b)[1..] == a[1..] + b;
      match ParseLine(a[0])
      case Add(r) =>
        if Load(a[1..]).Loaded? {
          PrependTwice([r], Load(a[1..]).rules, Load(b));
        }
      case _ =>
    }
  }

  predicate Ignorable(line: string) {
    line == "" || line[0] == '#'
  }

  lemma FirstToken(line: string)
    requires line != ""
    ensures Split(line)[0] == "" <==> line[0] == ' '
    ensures line[0] != ' ' ==> Split(line)[0][0] == line[0]
  {
  }

  /** Blank and comment lines may be inserted anywhere. */
  lemma IgnoresBlankAndComment(a: seq<string>, line: string, b: seq<string>)
    requires Ignorable(line)
    ensures Load(a + [line] + b) == Load(a + b)
  {
    if line != "" {
      FirstToken(line);
    }
    assert ([line] + b)[1..] == b;
    assert a + [line] + b == a + ([line] + b);
    LoadConcat(a, [line] + b);
    LoadConcat(a, b);
  }

  predicate GoodLine(line: string) {
    ParseLine(line).Skip? || ParseLine(line).Add?
  }

  /** The loader stops at the first bad line: what it returns is decided there, with
      the rules of the lines before it. In particular it panics exactly when the first
      bad line starts with a space. */
  lemma {:induction false} StopsAtFirstBadLine(lines: seq<string>, n: nat)
    requires n < |lines|
    requires forall i :: 0 <= i < n ==> GoodLine(lines[i])
    requires !GoodLine(lines[n])
    ensures Load(lines[..n]).Loaded?
    ensures Load(lines).Panicked? <==> lines[n] != "" && lines[n][0] == ' '
    ensures !Load(lines).Panicked? ==>
      && Load(lines).Failed? && Load(lines).rules == Load(lines[..n]).rules
      && ParseLine(lines[n]) == Reject(Load(lines).error)
  {
    if n == 0 {
      if lines[0] != "" {
        FirstToken(lines[0]);
      }
    } else {
      StopsAtFirstBadLine(lines[1..], n - 1);
      assert lines[1..][..n - 1] == lines[..n][1..];
    }
  }

  /** A file without a line that starts with a space never panics the loader, and it
      loads exactly when each of its lines is good. */
  lemma {:induction false} TotalWithoutLeadingSpace(lines: seq<string>)
    requires forall i :: 0 <= i < |lines| && lines[i] != "" ==> lines[i][0] != ' '
    ensures !Load(lines).Panicked?
    ensures Load(lines).Loaded? <==> forall i :: 0 <= i < |lines| ==> GoodLine(lines[i])
  {
    if lines != [] {
      if lines[0] != "" {
        FirstToken(lines[0]);
      }
      TotalWithoutLeadingSpace(lines[1..]);
      assert forall i :: 1 <= i < |lines| ==> lines[i] == lines[1..][i - 1];
    }
  }

  function Shapes(t: seq<string>): seq<bool> {
    [IsAssetGroupAdd(t), IsOwnerAdd(t), IsWebsiteAdd(t), IsServiceLink(t),
     IsHostLink(t), IsOwnership(t), IsWebsiteLink(t)]
  }

  /** At most one branch of the classifier applies to a line, so their order is irrelevant. */
  lemma BranchesExclusive(t: seq<string>, i: nat, j: nat)
    requires i < 7 && j < 7 && Shapes(t)[i] && Shapes(t)[j]
    ensures i == j
  {
  }

  /** What a line does, by its first character and its words: each kind of rule takes its fields
      from fixed places, and leaves the others empty. */
  lemma LineMeans(line: string, w: seq<string>)
    requires w != [] && line == Join(w) && forall t :: t in w ==> ' ' !in t
    ensures line == "" ==> ParseLine(line) == Skip
    ensures line != "" && line[0] == '#' ==> ParseLine(line) == Skip
    ensures line != "" && line[0] == ' ' ==> ParseLine(line) == Crash
    ensures line != "" && line[0] != '#' && line[0] != ' ' ==>
      ParseLine(line) ==
        if |w| < 2 then Reject(NotEnoughArguments)
        else if |w| == 3 && w[0] == "add" && w[1] == "assetgroup" then
          Add(Rule(AssetGroupAdd, "", "", "", w[2], "", "", "", "", ""))
        else if |w| == 3 && w[0] == "add" && w[1] == "website" then
          Add(Rule(WebsiteAdd, "", "", "", "", "", w[2], "", "", ""))
        else if |w| == 4 && w[0] == "add" && w[1] == "owner" then
          Add(Rule(OwnerAdd, "", "", "", "", "", "", w[2], w[3], ""))
        else if |w| == 6 && w[0] == "assetgroup" && w[1] == "matches" && w[3] == "link" && w[4] == "service" then
          Add(Rule(AssetGroupLinkService, "", w[2], w[5], "", "", "", "", "", ""))
        else if |w| == 6 && w[0] == "host" && w[1] == "matches" && w[3] == "link" && w[4] == "assetgroup" then
          Add(Rule(HostLinkAssetGroup, w[2], "", "", w[5], "", "", "", "", ""))
        else if |w| == 6 && w[0] == "website" && w[1] == "matches" && w[3] == "link" && w[4] == "assetgroup" then
          Add(Rule(WebsiteLinkAssetGroup, "", "", "", w[5], w[2], "", "", "", ""))
        else if |w| >= 6 && w[0] == "host" && w[1] == "matches" && w[3] == "ownership" then
          Add(Rule(HostOwnership, w[2], "", "", "", "", "", w[4], w[5], if |w| == 7 then w[6] else ""))
        else Reject(SyntaxError)
  {
    SplitJoin(w);
    if line != "" {
      FirstToken(line);
      TokensMean(w);
    }
  }

  lemma TokensMean(w: seq<string>)
    ensures ParseTokens(w) ==
        if |w| < 2 then Reject(NotEnoughArguments)
        else if |w| == 3 && w[0] == "add" && w[1] == "assetgroup" then
          Add(Rule(AssetGroupAdd, "", "", "", w[2], "", "", "", "", ""))
        else if |w| == 3 && w[0] == "add" && w[1] == "website" then
          Add(Rule(WebsiteAdd, "", "", "", "", "", w[2], "", "", ""))
        else if |w| == 4 && w[0] == "add" && w[1] == "owner" then
          Add(Rule(OwnerAdd, "", "", "", "", "", "", w[2], w[3], ""))
        else if |w| == 6 && w[0] == "assetgroup" && w[1] == "matches" && w[3] == "link" && w[4] == "service" then
          Add(Rule(AssetGroupLinkService, "", w[2], w[5], "", "", "", "", "", ""))
        else if |w| == 6 && w[0] == "host" && w[1] == "matches" && w[3] == "link" && w[4] == "assetgroup" then
          Add(Rule(HostLinkAssetGroup, w[2], "", "", w[5], "", "", "", "", ""))
        else if |w| == 6 && w[0] == "website" && w[1] == "matches" && w[3] == "link" && w[4] == "assetgroup" then
          Add(Rule(WebsiteLinkAssetGroup, "", "", "", w[5], w[2], "", "", "", ""))
        else if |w| >= 6 && w[0] == "host" && w[1] == "matches" && w[3] == "ownership" then
          Add(Rule(HostOwnership, w[2], "", "", "", "", "", w[4], w[5], if |w| == 7 then w[6] else ""))
        else Reject(SyntaxError)
  {
  }

  /** A concrete case: one line that starts with a space. */
  lemma LeadingSpace()
    ensures Load([" # comment"]).Panicked?
  {
    FirstToken(" # comment");
    assert [" # comment"][0] == " # comment";
  }

  /** A concrete case: an ownership line of eight words loses its override with the eighth. */
  lemma LostOverride()
    ensures var words := ["host", "matches", "web", "ownership", "ops", "core", "pager", "now"];
      ParseLine(Join(words)) ==
      Add(NewRule(HostOwnership).(srcHostMatch := "web", destOperator := "ops", destTeam := "core"))
  {
    var words := ["host", "matches", "web", "ownership", "ops", "core", "pager", "now"];
    OwnershipLine(words);
  }

  lemma OwnershipLine(words: seq<string>)
    requires IsOwnership(words) && forall w :: w in words ==> ' ' !in w
    ensures ParseLine(Join(words)) == ParseTokens(words)
  {
    SplitJoin(words);
    assert Join(words) != "";
  }

  /* ---------- printing ---------- */

  function Tokens(r: Rule): (tokens: seq<string>)
    ensures |tokens| >= 3
  {
    match r.ruletype
    case AssetGroupAdd => ["add", "assetgroup", r.destAssetGroupMatch]
    case OwnerAdd => ["add", "owner", r.destOperator, r.destTeam]
    case WebsiteAdd => ["add", "website", r.destWebsiteMatch]
    case AssetGroupLinkService =>
      ["assetgroup", "matches", r.srcAssetGroupMatch, "link", "service", r.destServiceMatch]
    case HostLinkAssetGroup =>
      ["host", "matches", r.srcHostMatch, "link", "assetgroup", r.destAssetGroupMatch]
    case WebsiteLinkAssetGroup =>
      ["website", "matches", r.srcWebsiteMatch, "link", "assetgroup", r.destAssetGroupMatch]
    case HostOwnership =>
      ["host", "matches", r.srcHostMatch, "ownership", r.destOperator, r.destTeam] +
      if r.destTriageOverride == "" then [] else [r.destTriageOverride]
  }

  function Print(r: Rule): string {
    Join(Tokens(r))
  }

  /** The rule uses only the fields of its type, and none of them contains a space. */
  predicate Printable(r: Rule) {
    && (forall t :: t in Tokens(r) ==> ' ' !in t)
    && r == match r.ruletype
            case AssetGroupAdd => NewRule(AssetGroupAdd).(destAssetGroupMatch := r.destAssetGroupMatch)
            case OwnerAdd => NewRule(OwnerAdd).(destOperator := r.destOperator, destTeam := r.destTeam)
            case WebsiteAdd => NewRule(WebsiteAdd).(destWebsiteMatch := r.destWebsiteMatch)
            case AssetGroupLinkService => NewRule(AssetGroupLinkService).(
              srcAssetGroupMatch := r.srcAssetGroupMatch, destServiceMatch := r.destServiceMatch)
            case HostLinkAssetGroup => NewRule(HostLinkAssetGroup).(
              srcHostMatch := r.srcHostMatch, destAssetGroupMatch := r.destAssetGroupMatch)
            case WebsiteLinkAssetGroup => NewRule(WebsiteLinkAssetGroup).(
              srcWebsiteMatch := r.srcWebsiteMatch, destAssetGroupMatch := r.destAssetGroupMatch)
            case HostOwnership => NewRule(HostOwnership).(
              srcHostMatch := r.srcHostMatch, destOperator := r.destOperator, destTeam := r.destTeam,
              destTriageOverride := r.destTriageOverride)
  }

  /** Classification inverts the choice of words, type by type. */
  lemma ClassifyTokens(r: Rule)
    requires Printable(r)
    ensures ParseTokens(Tokens(r)) == Add(r)
  {
  }

  lemma PrintedStart(r: Rule)
    ensures Print(r) != "" && Tokens(r)[0] != "" && Tokens(r)[0][0] != '#'
  {
  }

  lemma ParsePrinted(r: Rule)
    requires Printable(r)
    ensures ParseLine(Print(r)) == Add(r)
  {
    SplitJoin(Tokens(r));
    PrintedStart(r);
    ClassifyTokens(r);
  }

  function PrintAll(rules: seq<Rule>): seq<string> {
    seq(|rules|, i requires 0 <= i < |rules| => Print(rules[i]))
  }

  lemma PrintAllTail(rules: seq<Rule>)
    requires rules != []
    ensures PrintAll(rules)[0] == Print(rules[0]) && PrintAll(rules)[1..] == PrintAll(rules[1..])
  {
  }

  /** Loading inverts printing, for every list of printable rules. */
  lemma {:induction false} LoadPrinted(rules: seq<Rule>)
    requires forall r :: r in rules ==> Printable(r)
    ensures Load(PrintAll(rules)) == Loaded(rules)
  {
    if rules != [] {
      ParsePrinted(rules[0]);
      LoadPrinted(rules[1..]);
      PrintAllTail(rules);
      assert [rules[0]] + rules[1..] == rules;
    }
  }

  /** The surplus that the loader silently drops: extra words after an ownership rule,
      or an empty seventh word. */
  predicate DropsWords(line: string) {
    var t := Split(line);
    IsOwnership(t) && (|t| > 7 || (|t| == 7 && t[6] == ""))
  }

  lemma TokensOfParsed(t: seq<string>)
    requires ParseTokens(t).Add? && !(IsOwnership(t) && (|t| > 7 || (|t| == 7 && t[6] == "")))
    ensures Tokens(ParseTokens(t).rule) == t
  {
    if IsHostLink(t) {
      assert t[3][0] == 'l';
    }
  }

  lemma DroppedTokens(t: seq<string>)
    requires IsOwnership(t) && (|t| > 7 || (|t| == 7 && t[6] == ""))
    ensures ParseTokens(t).Add? && |Tokens(ParseTokens(t).rule)| == 6
    ensures ParseTokens(t).rule.destTriageOverride == ""
    ensures forall w :: w in Tokens(ParseTokens(t).rule) ==> w in t
  {
  }

  /** Printing inverts loading on a line exactly when no words are dropped. */
  lemma PrintParsed(line: string)
    requires ParseLine(line).Add?
    ensures Print(ParseLine(line).rule) == line <==> !DropsWords(line)
  {
    var t := Split(line);
    JoinSplit(line);
    if DropsWords(line) {
      DroppedTokens(t);
      SplitJoin(Tokens(ParseLine(line).rule));
    } else {
      TokensOfParsed(t);
    }
  }
}
