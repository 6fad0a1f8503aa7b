# service-map: a verified model

This project models the parts of service-map in which something can go subtly wrong, and
proves what they promise:

- the **interlink rule engine**: the rule file parser, the six stages that rewrite groups,
  owners and links inside one transaction, and what holds over many runs;
- the **risk calculation**: the choice of attribute, the highest likelihood per event source,
  median, mean and maximum, and the labels;
- the **store around both**: submission of indicators and RRAs, assembly of an RRA document
  from the tables, and the risk cache with its sweep and its clock.

`dafny verify dfyconfig.toml` checks everything.

## How the model is built

| file | part |
|---|---|
| `Rules.dfy`, `RuleParser.dfy`, `InterlinkManager.dfy` | the rule language, its parser, loading and running a file |
| `Sequences.dfy`, `Tables.dfy`, `Database.dfy` | permutations, tables with serial keys, the schema, statements, transactions |
| `InterlinkSpec.dfy`, `SchemaKeeping.dfy` | what the stages do to a database value; which statements keep the schema |
| `InterlinkPartial.dfy` | what a run that stops at a failing call leaves behind when nothing undoes it |
| `Interlink.dfy` | the stages as methods with loops, and the run |
| `InterlinkTheorems.dfy`, `Atomicity.dfy` | consequences of the run's specification; what a run without a transaction has changed |
| `ServiceLib.dfy`, `Stats.dfy` | documents, labels, validation; order statistics over exact reals |
| `RiskCalculation.dfy`, `RiskTheorems.dfy` | the calculation as methods; its order independence, monotonicity and range |
| `Store.dfy`, `RiskCache.dfy` | submissions, document assembly, cache and sweep |
| `ServiceRuns.dfy` | runs of the whole service, of which every handler is a step |
| `StoreTheorems.dfy`, `InterlinkHistory.dfy` | the queries; what holds over every such run |
| `RunInFields.dfy`, `RiskInFields.dfy`, `StoreInFields.dfy` | the results once more, in the fields of rules, rows and documents alone |

The database is a value: maps from id to row with a sequence counter per table, a list for
`rra_assetgroup` (a table without a key) and one for `risk`. An `OpContext` holds the state a
connection works on and, while a transaction is open, the state everybody else sees. `Exec`
takes a statement as the program's `op.Exec` takes SQL: it computes the state the statement
leaves, and rejects it if any constraint of the schema is broken. Besides that, a context
carries a predicate `fails` that makes the k-th call fail, for whatever reason; everything is
proved for every such predicate. SQL NULL is `None`: a scalar subquery without a row gives `None`,
and the guard of the link insert never finds a row equal to it.

The match `name ~* pattern` is an arbitrary predicate `matches`, a parameter of everything
that uses it, and so are Go's `strings.ToLower` and `strings.TrimSpace`; nothing is assumed
about them. The order in which the server returns rows and in which Go walks a map is an
arbitrary choice in the methods, and the specifications do not mention it.

## Where the code departs from its comments

- An ownership rule's triage override survives runs in which no ownership rule matches the
  host, because only the owner is cleared first; `InterlinkHistory.TriageDecided` says exactly
  which run decides it.
- A service-link rule that names an undeclared group inserts rows with a NULL group.
  `InterlinkTheorems.FinalNullLinks` counts them (a case: `InterlinkTheorems.DanglingLink`).
  Reading such a row fails, so the risk of every RRA the rule matches can no longer be computed
  (`StoreTheorems.RiskAfterRun`), and one such RRA ends every sweep of the cache that
  finds it stale (`RiskCache.Sweep`).
- The error of a failed Begin is ignored. Atomicity therefore needs Begin to succeed
  (`Interlink.RunRules`). When it fails, a later failure panics and leaves the complete stages
  before it and as much of its own as was done (`InterlinkPartial.Unfinished`, with
  `InterlinkPartial.CallsDone` for the number of calls that takes). In the stages that
  reconcile groups and owners, nothing has changed exactly when what was done was to insert
  what existed and to clear what nothing referred to (`Atomicity.NothingChanged`; a case where
  something has: `Atomicity.PartialRun`).
- Rules that add a website are parsed and never executed (`InterlinkTheorems.WebsiteAddIgnored`).
- The "highest impact" is the highest product of impact and probability. The attribute used
  has the highest impact exactly when some pair of the highest impact is not beaten by a
  likelier one (`RiskTheorems.HighestImpactUsed`), as when all probabilities are the same
  (`RiskTheorems.EqualProbabilities`); in `RiskTheorems.LowerImpactUsed` it has not.
- A line that starts with a space makes the loader index an empty word. It panics exactly when
  that is the first bad line (`RuleParser.StopsAtFirstBadLine`; a case:
  `RuleParser.LeadingSpace`).
- An ownership rule of eight words or more loses every word after the sixth, the override
  included, so it clears the override of the hosts it matches (`RuleParser.DroppedTokens`,
  `RuleParser.PrintParsed`; a case: `RuleParser.LostOverride`).
- The query for an asset's latest indicators does not restrict its outer part to the asset.
  `StoreTheorems.LatestExact` says when it returns another asset's indicator (a case:
  `StoreTheorems.ForeignIndicator`).
- A new event source can lower the median and the average. `RiskTheorems.NewSource` says
  exactly when (a case: `RiskTheorems.LowSource`).
- A successful sweep leaves an RRA stale exactly when it refreshed it and the new row is not
  after the cutoff. A positive interval excludes that; with any other and a clock that stands
  still, what was stale before the sweep is stale after it and nothing else is
  (`RiskCache.Sweep`; a case: `RiskCache.ZeroInterval`).
- An RRA whose data class is unknown, or whose name is blank, is accepted, but its risk can
  never be computed (`StoreTheorems.AcceptedDocument`; a case:
  `StoreTheorems.AcceptedWithoutRisk`).
- Raising a label of an RRA can lower its risk: in `RiskTheorems.RaisedLabel` the worst case
  drops from 16 to 12. It lowers nothing, whatever the indicators, exactly when the attribute
  used afterwards has no lower impact and gives the RRA no lower score of its own
  (`RiskTheorems.RaisingLabels`).

## Model

| member | source | states |
|---|---|---|
| Rules.GetRulesType | serviceapi/interlink.go:274-281 | the append loop returns the subsequence of one type, the function whose homomorphism law is the next row |
| Rules.OfTypeConcat | serviceapi/interlink.go:274-281 | selecting by type distributes over concatenation, so interleaving of types is invisible |
| RunInFields.OfTypeCounts | serviceapi/interlink.go:274-281 | the selection has each rule of the type as often as the file has it, and no rule of another type |
| RunInFields.Place | serviceapi/interlink.go:274-281 | each selected rule has a place in the file, and the selection keeps the order of the file |
| Rules.LastMatch | serviceapi/interlink.go:216-225 | the rule that decides a name: it matches and no later rule does; -1 if none matches |
| RuleParser.SplitJoin | serviceapi/interlink.go:386 | splitting at spaces inverts joining of words without spaces |
| RuleParser.JoinSplit | serviceapi/interlink.go:386 | joining inverts splitting, and no word contains a space |
| RuleParser.LoadRules | serviceapi/interlink.go:371-447 | the line loop computes Load: rules so far with the first error, or the panic |
| RuleParser.LoadConcat | serviceapi/interlink.go:381-443 | a concatenation loads as the second part after the first, or as the first alone if that fails |
| RuleParser.IgnoresBlankAndComment | serviceapi/interlink.go:383-390 | inserting a blank or comment line anywhere changes nothing |
| RuleParser.StopsAtFirstBadLine | serviceapi/interlink.go:386-442 | the first bad line decides: the rules before it are returned, and it panics iff it starts with a space |
| RuleParser.TotalWithoutLeadingSpace | serviceapi/interlink.go:386-441 | no panic without a leading space, and success iff every line is good |
| RuleParser.LeadingSpace | serviceapi/interlink.go:386-390 | a case: one line that starts with a space panics the loader |
| RuleParser.BranchesExclusive | serviceapi/interlink.go:397-438 | at most one of the seven branches applies to any word list |
| RuleParser.LineMeans | serviceapi/interlink.go:383-441 | what each kind of line gives: which word goes into which field, all others empty, and which error |
| RuleParser.ParsePrinted | serviceapi/interlink.go:386-442 | parsing inverts printing of every rule whose fields contain no space |
| RuleParser.LoadPrinted | serviceapi/interlink.go:371-447 | loading inverts printing of a whole rule list |
| RuleParser.PrintParsed | serviceapi/interlink.go:422-431 | printing inverts parsing of a line iff no surplus words of an ownership rule are dropped |
| RuleParser.DroppedTokens | serviceapi/interlink.go:422-431 | an ownership rule with surplus words keeps six of its words and no override |
| RuleParser.LostOverride | serviceapi/interlink.go:422-431 | a case: an ownership line of eight words |
| InterlinkManager.RunFile | serviceapi/interlink.go:449-459 | a file is run iff it loads as a whole; a committed run meets the specification; otherwise all rows are as before if Begin succeeded, and those of an unfinished run if not |
| InterlinkManager.CommentsIrrelevant | serviceapi/interlink.go:383-390 | a comment does not change what a file does to the database |
| InterlinkManager.PrintedFileRuns | serviceapi/interlink.go:449-459 | a printed file, types interleaved at will, has the effect of the rules |
| Tables.ReconcileFacts | serviceapi/interlink.go:58-103 | values become exactly those declared, survivors keep their ids, new ids are unused, uniqueness is kept |
| Tables.ReconcileTwice | serviceapi/interlink.go:58-103 | reconciling twice is reconciling once, ids included |
| Tables.ReconcileOrder | serviceapi/interlink.go:58-68 | the order of declarations affects only the ids of new rows |
| Tables.ReconcileSameIds | serviceapi/interlink.go:58-68 | in either order the new rows share the same block of ids |
| Tables.ReconcileIds | misc/dbinit.sh:54 | new ids are consecutive, one for each declared value that had no row |
| Database.OpContext.Exec | serviceapi/serviceapi.go:65-70 | a statement takes full effect, or none if it is made to fail or would break a constraint |
| Database.OpContext.Rollback | serviceapi/serviceapi.go:79-81 | all rows return to those of Begin; sequences do not |
| SchemaKeeping.UpdateKeeps | serviceapi/interlink.go:159-181 | every UPDATE of assets keeps all keys and foreign keys |
| SchemaKeeping.RemoveGroupKeeps | serviceapi/interlink.go:86-100 | each state between the three statements that remove a group satisfies the schema |
| SchemaKeeping.RemoveGroupEffect | serviceapi/interlink.go:86-100 | together they remove one more group with all its references |
| SchemaKeeping.RemoveOwnerKeeps | serviceapi/interlink.go:138-147 | the same for the two statements that remove an owner |
| SchemaKeeping.InsertLinkKeeps | serviceapi/interlink.go:256-265 | the guarded link insert keeps uniqueness and foreign keys |
| InterlinkSpec.GroupLinkStep | serviceapi/interlink.go:217-221 | one more rule takes precedence on the names it matches and changes nothing else |
| InterlinkSpec.OwnerLinkStep | serviceapi/interlink.go:158-185 | the same for the owner and the triage override of an ownership rule |
| InterlinkSpec.LinksInsert | serviceapi/interlink.go:255-269 | one guarded insert raises exactly the multiplicity it should |
| InterlinkSpec.StagesCompose | serviceapi/interlink.go:298-363 | the six stages in order meet the declarative specification of a run |
| Interlink.RunAssetGroupAdd | serviceapi/interlink.go:58-103 | the two loops reconcile the groups, clearing references of removed ones; only a call made to fail fails |
| Interlink.RunOwnerAdd | serviceapi/interlink.go:106-150 | the same for owners |
| Interlink.RunGroupLink | serviceapi/interlink.go:191-227 | every hostname (website) gets the group of its last matching rule or NULL, all else is unchanged |
| Interlink.RunHostOwnerLink | serviceapi/interlink.go:153-187 | owners are reset and set by the last matching rule; overrides change only where a rule matches |
| Interlink.RunAssetGroupServiceLink | serviceapi/interlink.go:231-272 | the link table is rebuilt with the specified multiplicities |
| InterlinkPartial.UnfinishedKeepsSchema | misc/dbinit.sh:53-79 | wherever a run without a transaction stops, the schema holds |
| InterlinkPartial.UnfinishedStops | serviceapi/interlink.go:298-363 | wherever a run without a transaction stops, overrides are those of the ownership rules it reached, and no id of a group or owner has changed its meaning |
| Interlink.RunRules | serviceapi/interlink.go:284-369 | commits iff no call after Begin failed; a committed run meets the specification; with Begin, any other outcome restores all rows and nobody ever sees a partial run; without it, a failure panics and leaves the complete stages before it and as much of its own as the calls before it got done |
| StoreInFields.SameRowsMeans | serviceapi/serviceapi.go:79-81 | what a run that was undone leaves alone: every row of every table |
| InterlinkTheorems.FinalGroup | serviceapi/interlink.go:191-227 | a hostname or website ends in group g iff its last matching rule names g and g is declared |
| RunInFields.HostnameGroup | serviceapi/interlink.go:211-227 | a hostname ends in g iff the last host rule of the file whose host pattern matches it names g, and g is there |
| RunInFields.WebsiteGroup | serviceapi/interlink.go:191-207 | a website ends in g iff the last website rule of the file whose website pattern matches it names g, and g is there |
| InterlinkTheorems.FinalOwner | serviceapi/interlink.go:153-187 | an asset ends with owner o iff it is a hostname whose last matching ownership rule names o |
| RunInFields.HostnameOwner | serviceapi/interlink.go:153-166 | a hostname is owned by o iff the last ownership rule whose host pattern matches it names o's operator and team; nothing else is owned |
| RunInFields.HostnameTriage | serviceapi/interlink.go:168-184 | a hostname's override is that of the last matching ownership rule, cleared if the rule has none, and unchanged without such a rule |
| InterlinkTheorems.OtherAssets | serviceapi/interlink.go:86-87 | other assets lose their owner and keep their group unless its name is no longer declared |
| RunInFields.AssetsKept | serviceapi/interlink.go:153-227 | no run adds or removes an asset or changes any other field of one; other tables are the same |
| InterlinkTheorems.FinalLinks | serviceapi/interlink.go:231-272 | rows with a group are exactly the linked pairs, each once |
| RunInFields.LinksAfter | serviceapi/interlink.go:231-272 | an RRA is linked to g once iff some service-link rule of the file whose service pattern matches it names g, else not at all |
| InterlinkTheorems.FinalNullLinks | serviceapi/interlink.go:256-265 | an RRA has one NULL row per matching rule that names an undeclared group |
| InterlinkTheorems.DanglingLink | serviceapi/interlink.go:256-265 | a case: one RRA, one matching rule, no declared group, one NULL row |
| RunInFields.NullLinksAfter | serviceapi/interlink.go:256-265 | an RRA has as many NULL rows as the file has matching service-link rules that name no group there is |
| InterlinkTheorems.GroupsReconciled | serviceapi/interlink.go:58-103 | after a run the group names are exactly those declared; ids survive, new ids are unused |
| RunInFields.GroupsAfter | serviceapi/interlink.go:58-103 | there is a group of a name after a run iff some rule of the file adds it |
| RunInFields.GroupIdsAfter | serviceapi/interlink.go:58-103 | no name twice, and a name that was there keeps its id |
| InterlinkTheorems.OwnersReconciled | serviceapi/interlink.go:106-150 | the same for owners |
| RunInFields.OwnersAfter | serviceapi/interlink.go:106-150 | the same for operator and team, each from its own field of a rule |
| RunInFields.OwnerIdsAfter | serviceapi/interlink.go:106-150 | the same for their ids |
| InterlinkTheorems.RunDeterministic | serviceapi/interlink.go:70-101 | the order in which the server returns rows does not affect any table |
| InterlinkTheorems.RunKeepsSchema | misc/dbinit.sh:53-79 | a run leads from a schema-valid state to a schema-valid state |
| InterlinkTheorems.RunIdempotent | serviceapi/interlink.go:284-369 | a second run of the same rules changes no table, ids and NULL rows included |
| InterlinkTheorems.InterleavingIrrelevant | serviceapi/interlink.go:274-281 | files with the same subsequences per executed type have the same effect |
| InterlinkTheorems.WebsiteAddIgnored | serviceapi/interlink.go:406-409 | a rule that adds a website has no effect wherever it stands |
| InterlinkTheorems.ServiceLinksPermute | serviceapi/interlink.go:236-270 | reordering the service-link rules changes no table, multiplicities of link rows included |
| InterlinkTheorems.EquivalentRuns | serviceapi/interlink.go:58-150 | reordering add rules and service-link rules changes results only by permuting the new ids among themselves |
| InterlinkHistory.TriageDecided | serviceapi/interlink.go:168-184 | over any run of the service, a host's override is that of the last matching rule of the latest interlink run in which one matched, else the original; an unfinished run counts with the ownership rules it reached |
| InterlinkHistory.TriageByFields | serviceapi/interlink.go:168-184 | the same in the fields of the deciding rule |
| InterlinkHistory.OwningMeans | serviceapi/interlink.go:274-281 | the rules a committed run applies are the ownership rules of its file, each as often |
| InterlinkHistory.IdsNeverReused | misc/dbinit.sh:53-66 | over any run of the service, a group or owner id that is not in use and below its sequence never comes back |
| InterlinkHistory.IdsDenoteOne | serviceapi/interlink.go:96-147 | over any run of the service an id denotes one group name and one owner only, without interruption |
| Atomicity.NothingAdded | serviceapi/interlink.go:58-68 | the first n group inserts change no row iff those groups all exist |
| Atomicity.NothingChanged | serviceapi/interlink.go:58-150 | a run that stopped in the first two stages without a transaction has changed no row iff it only inserted what existed and cleared what nothing referred to |
| Atomicity.RunWithoutBegin | serviceapi/interlink.go:285-307 | if Begin fails and insert n+1 fails, the run panics and exactly the first n groups are added, visible to all; no row has changed iff they existed |
| Atomicity.PartialRun | serviceapi/interlink.go:285-307 | a case: a run of two declared groups on an empty database that leaves one of them |
| ServiceLib.LabelRoundTrip | servicelib/rra.go:232-299 | a label survives its value, except that unknown becomes low |
| RiskInFields.LabelValues | servicelib/rra.go:232-250 | the value of each of the five labels; any other counts zero |
| ServiceLib.ValidateAccepts | servicelib/rra.go:324-492 | validation accepts exactly the good documents; the stored row carries each measure's folded labels in its own place |
| ServiceLib.RawRRA.Validate | servicelib/rra.go:353-379 | the in-place rewriting, its acceptance condition, and known labels afterwards |
| ServiceLib.RawIndicator.Validate | servicelib/indicator.go:40-64 | accepts iff complete with a known folded likelihood, which it stores |
| Stats.MedianOfSorted | vendor/github.com/montanaflynn/stats/median.go:6-25 | the median is the middle of any sorted listing of the scores |
| Stats.PermutationInvariant | serviceapi/risk.go:129-143 | median, mean and maximum depend on the multiset of scores only |
| Stats.StatisticsMonotone | serviceapi/risk.go:129-143 | raising scores pointwise lowers none of the three |
| Stats.AppendScoreMean | serviceapi/risk.go:134-138 | one more score lowers the mean iff it is below the mean |
| Stats.AppendScoreMedian | serviceapi/risk.go:129-133 | one more score lowers the median iff it and the sorted score below the middle are below the median |
| Stats.StatisticsBounds | serviceapi/risk.go:129-143 | bounds of the scores bound the statistics; none exceeds the maximum |
| RiskCalculation.HighestOfThree | servicelib/rra.go:60-146 | each of the three choices is the first pair with the highest product |
| RiskCalculation.RiskDoc.FindHighestImpact | serviceapi/risk.go:155-200 | fails iff no pair has risk; otherwise uses the first of nine pairs with the highest product |
| RiskInFields.UsedAttribute | serviceapi/risk.go:155-200 | the attribute used has the first highest product of nine pairs, and the name of its third |
| RiskInFields.PairsOf | servicelib/rra.go:60-146 | which columns make the nine pairs, in which order |
| RiskCalculation.RiskDoc.AddRRAScenario | serviceapi/risk.go:24-47 | appends the RRA's scenario with its probability capped at medium |
| RiskInFields.OwnScenario | serviceapi/risk.go:24-47 | the first scenario: its name, the used impact, the probability capped at two, and their product |
| RiskCalculation.RiskDoc.CollectSources | serviceapi/risk.go:56-76 | the nested loops fail iff some label is unknown, and fold all indicators into the table of sources |
| RiskCalculation.ObserveAllHighest | serviceapi/risk.go:59-73 | the table maps exactly the sources seen to the highest likelihood seen |
| RiskCalculation.HighestUnique | serviceapi/risk.go:56-76 | the table depends on the set of indicators only |
| RiskCalculation.RiskDoc.AddIndicatorScenarios | serviceapi/risk.go:51-93 | one scenario per source in some order, or none and an error |
| RiskInFields.SourceScenarios | serviceapi/risk.go:56-91 | each event source has a scenario with its name and the highest likelihood of its indicators; there are no more |
| RiskCalculation.RiskDoc.Finalize | serviceapi/risk.go:97-150 | the summary of the scores, including the case without scenarios; fails iff a label is unknown |
| RiskInFields.StatisticLabels | servicelib/rra.go:303-312 | each of the three statistics carries its own label, by the bounds 13, 9 and 5 |
| RiskInFields.WorstCaseIsHighest | serviceapi/risk.go:139-143 | the worst case is the highest score |
| RiskInFields.AverageIsMean | serviceapi/risk.go:134-138 | the average is the sum of the scores by their number |
| RiskInFields.MedianIsMiddle | serviceapi/risk.go:129-133 | the median is the middle of the ascending scores, or the mean of the two middle ones |
| RiskInFields.ImpactAndClass | serviceapi/risk.go:103-128 | impact and its label, data class and its value, one by one |
| RiskCalculation.RiskDoc.Calculate | serviceapi/risk.go:204-223 | succeeds iff the input is calculable, and then gives one of the specified documents |
| RiskTheorems.OrderIndependent | serviceapi/risk.go:56-91 | attribute, summary and the multiset of scenarios depend on the labels and the set of indicators only |
| RiskTheorems.RaiseOne | serviceapi/risk.go:65-67 | raising one likelihood raises the indicators |
| RiskTheorems.AddKnownSource | serviceapi/risk.go:60-67 | so does one more indicator of a known source |
| RiskTheorems.RaisingLowersNothing | serviceapi/risk.go:51-150 | raised indicators lower no statistic and no label |
| RiskTheorems.NewSource | serviceapi/risk.go:79-91 | a new source, anywhere among the indicators, never lowers the worst case; it lowers average and median exactly under the stated conditions |
| RiskTheorems.LowSource | serviceapi/risk.go:79-91 | a case: two calculated risks, the one with a low first indicator has lower median and average |
| RiskTheorems.RiskRange | serviceapi/risk.go:97-150 | all statistics in 1..16, none above the worst case, one scenario plus one per distinct source |
| RiskTheorems.WorstCase | serviceapi/risk.go:28-40 | worst case = impact times the higher of the capped probability and the highest likelihood |
| RiskTheorems.WorstCaseLabel | servicelib/rra.go:303-312 | never above medium without indicators; maximum iff impact is maximum and some indicator is |
| RiskTheorems.ChosenUnique | serviceapi/risk.go:171-182 | the attribute used is determined by the labels |
| RiskTheorems.HighestImpactUsed | serviceapi/risk.go:152-182 | its impact is the highest of the nine iff some pair of highest impact has a higher product than all of lower impact, ties to the earlier |
| RiskTheorems.EqualProbabilities | serviceapi/risk.go:152-182 | its impact is the highest when all probabilities have the same value |
| RiskTheorems.LowerImpactUsed | serviceapi/risk.go:152-182 | a case where it is not |
| RiskTheorems.RaisingLabels | serviceapi/risk.go:155-200 | between two label sets no statistic or label drops, whatever the indicators, iff the second attribute used has no lower impact and no lower own score |
| RiskTheorems.RaisedLabel | serviceapi/risk.go:155-200 | a case: one probability raised, the worst case drops from 16 to 12 |
| StoreTheorems.NewestExists | serviceapi/indicator.go:141-142 | every source seen on an asset has a newest indicator there |
| Store.AssetGetIndicators | serviceapi/indicator.go:138-167 | the row loop returns one indicator per row of the query |
| Store.AfterIndicatorKeeps | misc/dbinit.sh:83-91 | storing an indicator keeps the schema iff it is not a duplicate |
| Store.SubmitIndicator | serviceapi/indicator.go:20-71 | rejects, stores, or fails, each exactly when; the new state in each case |
| StoreInFields.SubmissionAdds | serviceapi/indicator.go:42-63 | exactly one indicator row is new, with the submitted fields, on the asset of that type, name and zone; at most one asset is new, bare; nothing else changes |
| StoreInFields.DuplicateMeans | misc/dbinit.sh:83-91 | a submission fails as a duplicate iff that asset has an indicator of its source and time |
| Store.UpdateRRA | serviceapi/rra.go:175-241 | an accepted document is stored unless present, with its folded name and class |
| StoreInFields.AcceptedWhen | servicelib/rra.go:324-492 | a document is accepted iff name and class are given and all nine measures are good, one by one |
| StoreInFields.StoredLabels | servicelib/rra.go:324-352 | each of the eighteen columns of the stored row is the folded label of its own measure |
| StoreInFields.StoredNames | servicelib/rra.go:353-420 | the stored name is trimmed and without line breaks; the three older classes are renamed |
| StoreInFields.DocumentAdds | serviceapi/rra.go:207-235 | the row as it is, and nothing else, is added unless one of its name and date is there |
| Store.GetRRA | serviceapi/rra.go:22-86 | assembles the row and exactly the indicators linked to it; fails iff a read fails or a link is NULL |
| StoreInFields.DocumentHolds | serviceapi/assetgroup.go:20-51 | an indicator is in the document iff a link to a named group, an asset of any type in it, and a stored latest indicator of that asset lead to it |
| StoreInFields.DocumentGroup | serviceapi/rra.go:54-86 | each group of the document is a linked, named one, with its stored name and each of its assets once |
| StoreInFields.DocumentHasGroup | serviceapi/rra.go:54-86 | each linked, named group is in the document, once |
| StoreInFields.RiskMeans | serviceapi/risk.go:259-274 | a computed risk is a finished one of the stored row and of such a document |
| RiskCache.RiskForRRA | serviceapi/risk.go:227-274 | returns a fresh cached risk or one computed now; succeeds iff no read fails and a fresh newest row is valid, or without one the state is computable |
| StoreInFields.GivenMeans | serviceapi/risk.go:230-257 | a reader is given a risk of the tables, or that of a newest cached row less than 14400 seconds old |
| StoreInFields.HasFreshMeans | serviceapi/risk.go:245-257 | the cache decides iff the RRA has a row less than 14400 seconds old |
| RiskCache.CacheRisk | serviceapi/risk.go:278-297 | stores a risk of this state with the current time, or changes nothing |
| RiskCache.Sweep | serviceapi/risk.go:299-337 | succeeds iff no read fails and every stale RRA is computable; adds one row for each RRA it refreshed, all stale before; afterwards stale are exactly those whose new row is not after the cutoff: none if the interval is positive, the same as before otherwise on a stopped clock |
| StoreInFields.NothingStaleMeans | serviceapi/risk.go:305-325 | nothing is stale iff every RRA has a cached row after the cutoff |
| StoreInFields.SweptMeans | serviceapi/risk.go:316-331 | the rows a sweep adds, in fields: which RRAs, risks and times |
| StoreInFields.StaleMeans | serviceapi/risk.go:316-325 | which RRAs are stale, and which still are after a sweep |
| RiskCache.ZeroInterval | serviceapi/risk.go:309-324 | a case: an RRA stale before and after its refresh with interval zero, not with a positive one |
| RiskCache.ServiceRisks | serviceapi/rra.go:89-136 | answers with one risk for each latest RRA, each computed now or fresh; fails iff a read fails or one of them cannot be given |
| StoreInFields.AnswersMean | serviceapi/rra.go:102-124 | the answer has one risk for each listed RRA, in the same order |
| StoreTheorems.LatestExact | serviceapi/indicator.go:138-143 | the newest indicator of each source is returned, and nothing else iff no other asset shares its source and time |
| StoreInFields.LatestMeans | serviceapi/indicator.go:138-143 | a returned indicator on the asset is at least as late as all of its source there |
| StoreTheorems.ForeignIndicator | serviceapi/indicator.go:138-143 | a case of two assets where another's indicator is returned |
| StoreTheorems.OneLatest | serviceapi/rra.go:93-97 | the selection has exactly one RRA per service, with the maximal date |
| StoreTheorems.ResubmissionIgnored | serviceapi/rra.go:224-227 | once a document is stored, one of its name and date changes nothing at any later state of a run |
| StoreTheorems.SubmissionStores | serviceapi/rra.go:207-227 | a submitted document is stored afterwards, under its name and date |
| StoreTheorems.OlderIgnored | serviceapi/rra.go:291-295 | an older document never changes the selection |
| StoreTheorems.NewerSelected | serviceapi/rra.go:291-295 | a newer document takes its service's place and no other's |
| ServiceRuns.NextKeepsSchema | misc/dbinit.sh:16-92 | every step of the service, unfinished runs included, keeps every constraint of the schema |
| ServiceRuns.AlwaysConsistent | misc/dbinit.sh:16-92 | from a state that satisfies the schema on, every reachable state does |
| StoreInFields.SchemaMeans | misc/dbinit.sh:16-92 | the schema, constraint by constraint |
| ServiceRuns.AlwaysSound | servicelib/indicator.go:53-62 | from known labels on, all stored labels are known in every reachable state |
| ServiceRuns.ServeIndicator | serviceapi/indicator.go:20-71 | the indicator handler takes one step of a run, whatever it is given and whichever calls fail |
| ServiceRuns.ServeRRA | serviceapi/rra.go:175-241 | so does the RRA handler |
| ServiceRuns.ServeRules | serviceapi/interlink.go:284-369 | so does an interlink run, committed, undone or cut short |
| ServiceRuns.ServeFile | serviceapi/interlink.go:449-459 | so does a pass of the rule manager over a file |
| ServiceRuns.ServeRisk | serviceapi/risk.go:278-297 | so does caching one risk |
| ServiceRuns.ServeSweep | serviceapi/risk.go:299-337 | a sweep is a sequence of steps, cache writes and clock ticks |
| StoreTheorems.CacheOrigin | serviceapi/risk.go:289-296 | every cached row is the risk of the state at the time it carries |
| StoreTheorems.CacheFresh | serviceapi/risk.go:230-257 | what a reader gets is the risk on a state less than four hours old, or the current one |
| StoreTheorems.GivenWhenReachable | serviceapi/risk.go:230-257 | in a reachable state, with the cache on, a risk is given iff there is a fresh row or the risk is computable |
| StoreTheorems.ComputableWhenSound | serviceapi/risk.go:227-274 | in a reachable state a risk is computable iff class and name are good and no link is NULL |
| StoreInFields.ComputableMeans | serviceapi/risk.go:227-274 | the same in the fields of row and links |
| StoreTheorems.AcceptedDocument | servicelib/rra.go:353-420 | for an accepted document that is iff its folded class is known and its trimmed name is not empty |
| StoreTheorems.AcceptedWithoutRisk | servicelib/rra.go:353-420 | a case: an accepted document whose risk no state can compute |
| StoreTheorems.RiskAfterRun | serviceapi/rra.go:54-86 | after a run a risk is computable iff, besides, no matching service-link rule names an undeclared group |

## Left out

- Atomicity.NothingChanged: not for the linking stages, where it would say that every link set so far was as it had been.
- Regular expression matching, SQL parsing and the query planner: statements are written out as functions on tables, `~*` is arbitrary.
- A subquery that raises an error, an invalid pattern for instance, is one of the ways a call may fail.
- Writers other than this service: a run of the service consists of the steps of its handlers.
- Concurrent writers during a run: a run sees its own writes only; other connections only read.
- Serial counters also skip ids when a statement fails; here a failed statement leaves them alone, a rolled back one does not.
- A link row with a NULL RRA: no statement of the program writes one.
- HTTP handlers, routing, JSON, API keys, S3, configuration, logging, timers: plumbing; a risk document is taken to survive its JSON form.
- The maximal line length of the line scanner, whose error the loader ignores: lines are given.
- Owner names and triage keys as shown for an asset, the details and raw documents stored with rows, and the time of an asset's last indicator.
- Floating point: scores are small integers held exactly as reals; only the mean and the middle of an even list divide.
- The sorting, summing and maximum loops of the statistics library: they are functions here, sorting by insertion.
- Database.OpContext.Commit: a failed commit is taken to be undone; one that took effect while its acknowledgement was lost is not modelled.
- Store.GetRRA: its reads see one state; the program does not keep others from writing between them.
- RiskCache.Sweep: the same between its listing and its writes, apart from its own.
- RiskCache.ServiceRisks: the same between its listing and the risks.
- Two cache writes at once: each is one atomic step, and the time a row carries is the time of that step.
