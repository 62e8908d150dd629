# Verified model of the payments / settlement reconciliation

The program computes the same money several ways: it maps payment and settlement rows through configured rules
into summary buckets, joins the two sources by record key, gates a strict run on per-group agreement, stores
everything in PostgreSQL and lets an independent query recompute the result. This project models that pipeline,
the exact money under it, the byte streams that name configurations and runs, and the two database protocols
around it, and proves that the ways agree.

## How the modules follow the program

| modules | program |
|---|---|
| `Text`, `Outcome`, `Sequences`, `Folds` | Go's string helpers, (value, error) results, slices, the sort package, checked totals |
| `Money` | internal/money |
| `Domain`, `Normalize` | internal/domain, internal/normalize |
| `Encoding`, `ConfigStream` | length-prefixed streams in internal/store and internal/reconcile, migration 007 |
| `Engine`, `EngineLoops`, `MapRun`, `Selection`, `StrictRows` | internal/mapping/engine.go |
| `Classification`, `Grouping`, `GroupOrders`, `GroupTable`, `Groups`, `Conservation`, `InputOrder` | internal/reconcile, and that the order of rows does not show |
| `Gate`, `Pipeline` | the controls and the order of steps in cmd/recon/main.go, the strict gate of `Persist` |
| `RunTables`, `Storability`, `Persist`, `Verify` | the tables of a run, what they accept, `Persist`, `VerifyRun` |
| `VerifyBuckets`, `StrictVerification`, `EndToEnd`, `DiagnosticVerification`, `CurrencyScope` | the agreement of all these in both modes |
| `Counterexamples` | runs on which a plainer statement fails |
| `Ingest`, `PaymentMoney`, `Report` | the checks of internal/ingest/parser.go, the sums of internal/report |
| `Patch`, `Routing` | internal/mapping/patch.go and what routing-only corrections preserve |
| `ConfigLoad` | internal/mapping/config.go |
| `ConfigStore`, `ConfigTransactions`, `ConfigImports`, `ConfigReplay`, `ConfigRevisions`, `ConfigDatabase` | configuration tables with their triggers, internal/store/config.go, migration 003 |
| `RunStore`, `RunDatabase` | `claimRun`, `markRunFailed`, the stage changes of `Persist`, internal/store/artifact.go |
| `RunHistories` | what any number of workers leave in the tables of each run |

Code that only computes is functions (`Engine`, `MapRun`, `Grouping`, `Verify`). Code that loops or updates
state is methods and classes proved against those functions: `EngineLoops` for the engine, `GroupTable` for the
hash map of mutable groups, `Classification` and `Ingest` for rows overwritten in an array, `ConfigLoad` for the
records of a mapping file, `Persist` for the batches of one run, `ConfigDatabase` and `RunDatabase` for the
tables. A loop over a Go map takes its keys in an arbitrary order, so what is proved of it holds for every order.

Each database statement is a guarded step whose failure aborts its transaction, and each transaction is one atomic
step. SHA-256 is an arbitrary function from text to text; results that need two texts to have different digests
say so. A collation is an arbitrary total order in which `payment` comes before `settlement`. Strings are
sequences of bytes.

## Where a plain statement would be false

- A payment row with an empty type reads the catch-all index twice (internal/mapping/engine.go:99-100), although
  the repository's README calls an empty `transaction_type` a mere fallback. `Selection.ChoiceIsBestMatchIff` gives
  the exact condition under which the choice is the best match. Such a row stops a strict run
  (`StrictRows.EmptyTypeNeverStrict`), and a diagnostic run that maps it is refused by the database
  (`Storability.UntypedNeverStored`); `Counterexamples.UntypedPayment` is such a run.
- In diagnostic mode a failed row keeps partial contributions that groups count, the store keeps and the summary
  leaves out. `Gate.MergedBuckets` and `EndToEnd.TotalsDifferIff` state the difference exactly,
  `DiagnosticVerification.DiagnosticRunVerifies` what it means for the verification, and
  `Counterexamples.FailedRowUnverified` is a run it makes unverifiable.
- The gate skips groups out of scope, the verification does not. `EndToEnd.StrictRunVerifies` gives the exact
  condition and `Counterexamples.GateSkipsOtherSettlements` gated and stored runs on both sides of it.
- The hash computed in Go and the one stored by the database differ for a rule with an optional field of white
  space only, and a second import would then fail. `ConfigStream.StreamsAgree` and `ConfigImports.ReimportIff` are
  equivalences about any rules given to `EnsureFrozenConfig`. The program never gives it such a rule: both callers
  (cmd/recon/main.go:220 and 364) pass what `LoadConfig` loaded, which trims every field
  (internal/mapping/config.go:48-53), so `ConfigImports.ReimportLoaded` holds without a condition on the rules.
- `apply_mapping_fixes` computes a delimiter-joined hash (migrations/003_config_replay.sql:136-146) that the
  freeze trigger replaces; the model follows the trigger.
- The header check counts in-scope settlement rows marked as having no amount, the verification does not
  (`EndToEnd.HeaderVerifiesIff`). The parser refuses a transaction without an amount
  (internal/ingest/parser.go:287-289), so on parsed rows the two agree.

## Model

| member | source | states |
|---|---|---|
| `Money.ParseCentsExact` | internal/money/money.go:10-58 | An amount text is accepted with value v exactly when, trimmed, it is a literal of the grammar (optional sign, plain or comma-grouped whole part, at most two decimals) whose exact cents are v and fit in 64 signed bits. |
| `Money.ParseCentsRejects` | internal/money/money.go:15-49 | Each rejection has its exact cause: blank text, text outside the grammar, or a literal whose cents do not fit. |
| `Money.FormatCentsCanonical` | internal/money/money.go:80-96 | Every printed amount is a sign for negative values, a numeral without commas or redundant leading zero, a point and two decimals, and denotes the printed value. |
| `Money.FormatParseRoundTrip` | internal/money/money.go:14-96 | Printing an amount and reading it back is the identity on all 64-bit values, the smallest one included. |
| `Money.Add` | internal/money/money.go:60-68 | Addition succeeds exactly when the exact sum fits in 64 bits, and returns it. |
| `Money.Sub` | internal/money/money.go:70-78 | Subtraction succeeds exactly when the exact difference fits in 64 bits, and returns it. |
| `Folds.FoldExact` | internal/money/money.go:60-68 | A running total succeeds exactly when every prefix sum fits, and is then the exact sum. |
| `Folds.FoldOrderAgrees` | internal/report/report.go:323-345 | Any two orders of summation that succeed agree. |
| `Folds.EveryOrderSucceedsIff` | internal/report/report.go:323-333 | All orders of summation succeed exactly when the positive total and the negative total each fit. |
| `Encoding.EncodeInjective` | internal/store/store.go:439-442 | Length-prefixed concatenations are uniquely decodable: equal streams have equal part lists of any length. |
| `Encoding.EncodeBlocksInjective` | internal/store/store.go:379-383 | A stream of equally wide blocks determines the blocks. |
| `Grouping.IdentityKeyInjective` | internal/reconcile/reconcile.go:120-126 | Hash-map keys of two groups are equal exactly when key, settlement, currency and scope are. |
| `EngineLoops.MapAll` | internal/mapping/engine.go:26-91 | The row loop with its index, issue set and checked bucket totals computes the run that `MapRun` defines and the theorems below are about: same records, same totals, same issues in order, same first error. |
| `EngineLoops.MapOneRow` | internal/mapping/engine.go:93-241 | Mapping one row through the index, the field map and the sorted field list gives the attempt defined on the rule list itself; neither index nor map order shows. |
| `EngineLoops.BuildIndex` | internal/mapping/engine.go:46-51 | The index holds under each label exactly the rules of that label, in configuration order. |
| `EngineLoops.MatchCandidates` | internal/mapping/engine.go:101-124 | The tests of the candidate loop keep exactly the matching rules, in order. |
| `EngineLoops.AnySpecific` | internal/mapping/engine.go:126-132 | Reports whether some selected rule names a transaction type. |
| `EngineLoops.SelectRules` | internal/mapping/engine.go:98-141 | Candidates from the index, the matching tests and the suppression of catch-alls select the rules defined on the rule list. |
| `EngineLoops.GroupByField` | internal/mapping/engine.go:144-151 | The field map holds exactly the fields of the selected rules, each with its rules in order. |
| `EngineLoops.FieldList` | internal/mapping/engine.go:152-155 | Lists each key of the field map once, in any order. |
| `EngineLoops.SortForgets` | internal/mapping/engine.go:152-156 | Whatever order the map yields its distinct keys in, sorting gives one list. |
| `EngineLoops.PreferExact` | internal/mapping/engine.go:158-179 | Exact descriptions suppress wildcards within a field. |
| `EngineLoops.Contribute` | internal/mapping/engine.go:186-219 | The contribution loop appends in rule order, fixes the first key, and stops at the first failure or conflicting key with what it had. |
| `EngineLoops.MapField` | internal/mapping/engine.go:180-219 | Several rules for a field stop a strict row and are an issue of a diagnostic one; then the field's rules contribute. |
| `EngineLoops.MapAllFields` | internal/mapping/engine.go:157-220 | The fields are processed in sorted order until one fails. |
| `EngineLoops.TotalAndComponentRouted` | internal/mapping/engine.go:221-235 | Reports whether money is routed both for the total and for a component. |
| `EngineLoops.ValidateRules` | internal/mapping/engine.go:30-45 | Returns the first defect of the first defective rule, or none. |
| `EngineLoops.TotalRow` | internal/mapping/engine.go:73-87 | Adds the routed contributions of a row to the buckets of its source with checked additions, failing on the first overflow. |
| `EngineLoops.CollectIssues` | internal/mapping/engine.go:67-72 | The messages of a row that are not listed yet are added, each once, in the order of their first occurrence; no message is ever listed twice and none is lost. |
| `MapRun.RunIssues` | internal/mapping/engine.go:53-91 | A whole run lists each message of its mapped rows exactly once, however many rows raise it, and no message of a row that failed. |
| `EngineLoops.ExpandTemplate` | internal/mapping/engine.go:275-304 | The token loop expands a template to the parts defined token by token, or fails at the first bad token. |
| `Selection.ChosenIsBestMatch` | internal/mapping/engine.go:98-188 | For a row with a transaction type, the rules chosen for a field are, in configuration order, exactly the matching rules left after specific rules suppress catch-alls for the whole row and exact descriptions suppress wildcards in the field. |
| `Selection.ChoiceIsBestMatchIff` | internal/mapping/engine.go:99-100 | That description of the choice holds exactly when the row has a transaction type or nothing matches. |
| `Selection.ChosenTwice` | internal/mapping/engine.go:99-100 | For a row without a transaction type every best match is chosen twice. |
| `Selection.FieldNamesExact` | internal/mapping/engine.go:144-156 | The processed fields are exactly those for which something is chosen. |
| `StrictRows.StrictMapsIff` | internal/mapping/engine.go:93-241 | A transaction row maps strictly exactly when every field with a match has one rule, each yields a contribution, all share one key, there is a field, and total and component are not both routed. |
| `StrictRows.StrictContributions` | internal/mapping/engine.go:157-241 | A strictly mapped row has exactly one contribution for each field, in field order, from the one rule of that field. |
| `StrictRows.StrictSettlement` | internal/mapping/engine.go:145-149 | A strictly mapped settlement transaction has exactly one contribution, of its own amount. |
| `StrictRows.EmptyTypeNeverStrict` | internal/mapping/engine.go:99-100 | A transaction row without a type never maps strictly. |
| `StrictRows.MappedRowShape` | internal/mapping/engine.go:189-239 | A row mapped without error has one non-empty key of non-empty, delimiter-free parts that all its contributions share, no issue in strict mode, and never routes both total and component. |
| `StrictRows.ContributionOrigin` | internal/mapping/engine.go:186-212 | Every contribution of a mapped row comes from a configured rule, with the amount, target, decision and key that rule gives. |
| `StrictRows.ContributionSource` | internal/mapping/engine.go:186-212 | The same of the partial contributions of a row that failed, except for the key. |
| `StrictRows.KeysFaithful` | internal/mapping/engine.go:189-218 | Keys of mapped rows, of either source, are equal exactly when their key parts are; splitting a key gives its parts back. |
| `StrictRows.OnlySelectorIssues` | internal/mapping/engine.go:180-185 | Mapping keeps the row and raises no issue but duplicate selectors. |
| `Engine.Expand` | internal/mapping/engine.go:275-304 | Expanded keys are non-empty lists of non-empty parts free of the delimiter. |
| `MapRun.MapRowsTotals` | internal/mapping/engine.go:52-90 | A successful run keeps one record per row in order; each bucket is the exact sum of what rows that did not fail send to it in scope; a strict run has no failed row and no issue. |
| `MapRun.MapsAllIff` | internal/mapping/engine.go:57-66 | A strict run that succeeds maps every row; a diagnostic run does exactly when none of its records is marked failed. |
| `GroupTable.BuildGroups` | internal/reconcile/reconcile.go:40-118 | Over a hash map of mutable groups: succeeds exactly when every running total fits in 64 bits, and then returns the full outer join in report order, whatever order the map yields; it succeeds in any order of the rows when each row fits at both extremes. |
| `GroupTable.GroupMap.AddMapped` | internal/reconcile/reconcile.go:42-84 | Finds or makes the group of a row and updates that object in place; the map then holds what adding the row to a table of values gives, and no two keys share an object. |
| `GroupTable.GroupMap.FindOrMake` | internal/reconcile/reconcile.go:46-51 | The group object of a row's identity, made empty when there is none; no other group changes. |
| `GroupTable.AddContributions` | internal/reconcile/reconcile.go:59-66 | Adds the routed contributions of a row to buckets with checked additions, stopping at the first overflow. |
| `GroupTable.GroupMap.AddAll` | internal/reconcile/reconcile.go:85-94 | Adds the rows of one source in order, stopping at the first overflow. |
| `GroupTable.GroupMap.ListGroups` | internal/reconcile/reconcile.go:95-100 | Lists every group once, in any key order, with the rows of both sides put in line order. |
| `GroupTable.Group.AddPayment` | internal/reconcile/reconcile.go:52-66 | Updates the payment side in place with checked additions and leaves the settlement side alone. |
| `GroupTable.Group.AddSettlement` | internal/reconcile/reconcile.go:67-82 | Updates the settlement side in place with checked additions and leaves the payment side alone. |
| `GroupTable.Group.SortRows` | internal/reconcile/reconcile.go:97-98 | Puts the rows of both sides in line order and changes nothing else. |
| `GroupTable.GroupOrder` | internal/reconcile/reconcile.go:101-116 | The comparison of groups is a strict weak order, as sorting needs. |
| `Grouping.JoinTableOkIff` | internal/reconcile/reconcile.go:55-78 | The join fails on overflow of a group amount or bucket along the input order, and on nothing else. |
| `Grouping.JoinTableExact` | internal/reconcile/reconcile.go:40-94 | Groups are exactly the classes of (key, settlement, currency, scope); each holds exactly its rows, their exact total and exact buckets. |
| `Groups.ListingIsGrouping` | internal/reconcile/reconcile.go:95-117 | Finishing and sorting the table gives the full outer join. |
| `Groups.OneGroupPerRow` | internal/reconcile/reconcile.go:42-51 | Every transaction row of either source is a member of exactly one group. |
| `Groups.GroupingUnique` | internal/reconcile/reconcile.go:85-117 | With lines identifying rows and keys determining parts, results for rearranged inputs are the same list. |
| `InputOrder.KeysGiveParts` | internal/mapping/engine.go:212-218 | In every run of either mode, over rows of both sources, failed rows included, equal record keys come from equal key parts. |
| `InputOrder.RunIgnoresOrder` | internal/reconcile/reconcile.go:40-118 | Two runs over files with the same rows in another order, whose lines identify them, have the same list of groups, the same merged summary at every target, and the same outcome of header control and gate. |
| `GroupOrders.EveryOrderJoinsIff` | internal/reconcile/reconcile.go:42-99 | Grouping succeeds on every rearrangement of both files exactly when, at each row, the amount of its group and each bucket it routes to fit in 64 bits both after all positive and after all negative other rows of the group. |
| `GroupOrders.ReachesIff` | internal/money/money.go:60-68 | A running total of a group fits at a row in every order exactly when it fits at these two extremes. |
| `GroupOrders.SignsSuffice` | internal/reconcile/reconcile.go:52-91 | It is enough that in each group the positive amounts, the negative amounts, and the positive and the negative contributions to each target fit separately. |
| `InputOrder.GroupsInEveryOrder` | internal/reconcile/reconcile.go:40-99 | When the rows of a run fit at the extremes, grouping succeeds for every run over rearranged files. |
| `Classification.Classify` | internal/reconcile/reconcile.go:12-38 | Overwrites the scope of every row in place and nothing else. |
| `Classification.InScopeIff` | internal/reconcile/reconcile.go:15-35 | In scope are exactly the transactions of the selected settlement that, on the payment side, are released, in any letter case; classifying again changes nothing. |
| `Conservation.GroupBucketsConserve` | internal/reconcile/reconcile.go:52-81 | Each bucket, summed over the in-scope groups of a source, is what its in-scope rows send to it. |
| `Conservation.GroupsMatchSummary` | internal/mapping/engine.go:57-66 | In-scope group buckets equal the summary bucket plus the partial contributions of failed rows, in every mode. |
| `Conservation.NoFailedWeight` | internal/mapping/engine.go:57-65 | When every row maps, in whichever mode, that correction is zero. |
| `Gate.MergeSummary` | cmd/recon/main.go:496-508 | The merged summary has the targets of both; payments from the first, settlements from the second where it has the target and from the first otherwise; map order does not show. |
| `Gate.CopyBothSides` | cmd/recon/main.go:498-500 | The first loop copies both sources of every target, whatever order the map yields. |
| `Gate.StrictGate` | internal/store/store.go:132-158 | The gate passes exactly when all summary buckets agree and every in-scope group agrees in buckets and, if two-sided, in amount; a mismatch it reports is real. |
| `Gate.HeaderCheck` | cmd/recon/main.go:408-432 | Succeeds exactly when the selected settlement has one metadata row, every running activity total fits, and the header equals the in-scope activity; each error has its exact cause. |
| `Gate.GroupsForceSummary` | internal/store/store.go:133-157 | In any mode, equal per-group buckets in scope leave the two halves of the merged summary apart by exactly the partial contributions of failed rows. |
| `Gate.GroupsForceAgreement` | internal/store/store.go:133-157 | So when no row fails they force the summary half of the gate to pass. |
| `Gate.MergedBuckets` | cmd/recon/main.go:496-508 | In any mode, the in-scope group buckets of each side add up to its half of the merged summary plus the partial contributions of its failed rows. |
| `Gate.MergedBucketsWhole` | cmd/recon/main.go:496-508 | When no row fails, in whichever mode, each half of the merged summary is the sum of the in-scope group buckets of its side. |
| `Persist.PersistRun` | internal/store/store.go:128-358 | Persist without its claim: tables are committed exactly when there is a configuration version, the gate of a strict run passes, the rules are there or may be inserted, and every constraint holds; otherwise neither the configuration nor the tables change. |
| `Persist.PersistableOnFrozen` | internal/store/store.go:198-210 | On a frozen version, the only kind a run is given, the rules ask exactly that all of them are there already, and none is inserted. |
| `Persist.OwnRulesNeverRefused` | internal/store/store.go:198-210 | A run by version name is never refused for its rules: what was read from a frozen version is found there after any later history, and nothing is inserted. |
| `Persist.ImportedRulesNeverRefused` | internal/store/store.go:198-210 | Nor is a run by files, under the version its import made or found, barring a digest collision when it was found. |
| `Persist.MappingsHaveRules` | internal/store/store.go:267-282 | Every committed mapping names a rule of the run's configuration version. |
| `Persist.StoreTables` | internal/store/store.go:211-354 | The rest of the body, once every rule has an id, stores the tables the rows determine exactly when every uniqueness, reference and lineage constraint holds. |
| `Persist.StageRows` | internal/store/store.go:211-266 | Every row is stored once under (source, ordinal); a repeated pair or a non-positive position is an error. |
| `Persist.CollectRuleKeys` | internal/store/store.go:198-210 | ruleIDs after the lookups and inserts, which `ConfigDatabase.Database.StoreRunConfig` models, have all succeeded: an id for the (source, file, line) of every rule, and for nothing else. |
| `Persist.StageMappings` | internal/store/store.go:267-282 | One mapping for each contribution, in order; a contribution whose rule has no row is an error. |
| `Persist.CheckMappings` | migrations/006_audit_hardening.sql:65-80 | Accepts exactly mappings whose rule is of their row's source and that name no (row, rule) pair twice. |
| `Persist.StoreControls` | internal/store/store.go:290-300 | One control for the metadata row of the selected settlement; an amount that is absent or a second row is an error. |
| `Persist.StoreTotals` | internal/store/store.go:301-314 | One total for each target and source with the number of contributions behind it, whatever order the map yields. |
| `Persist.StoreGroups` | internal/store/store.go:315-335 | One record for each group, with the status its sides give; a repeated identity is an error. |
| `Persist.StageMembers` | internal/store/store.go:336-344 | Every row of every group becomes a member of that group. |
| `Persist.CheckMembers` | migrations/002_audit_lifecycle.sql:123-129 | Accepts exactly members that are stored rows, each at most once. |
| `Persist.GroupingFits` | internal/store/store.go:336-349 | For the groups BuildGroups returns that check never fails. |
| `EndToEnd.StrictRunMeasures` | internal/store/verify.go:56-105 | After mapping, header check, gate and storage the recomputation finds no bucket, summary or header mismatch, no stored issue and every transaction a member once; its amount mismatches are exactly the two-sided groups out of scope whose sides differ. |
| `EndToEnd.StrictRunVerifies` | internal/store/verify.go:106-131 | Once reported, such a run passes verification exactly when every two-sided group out of scope has equal amounts. |
| `EndToEnd.TotalsDifferIff` | internal/store/verify.go:89-96 | In either mode the recomputed summary differs from the stored one exactly at the sources and fields where the partial contributions of failed rows do not sum to zero. |
| `EndToEnd.HeaderVerifiesIff` | internal/store/verify.go:97-105 | A run behind the header control has no header mismatch exactly when the in-scope amounts marked missing sum to zero. |
| `DiagnosticVerification.DiagnosticRunVerifies` | internal/store/verify.go:106-131 | A reported diagnostic run verifies exactly when all two-sided groups agree on their amounts, the partial contributions of failed rows cancel everywhere, and the amounts marked missing sum to zero. |
| `RunHistories.ReportedRunsVerify` | internal/store/store.go:159-361 | Over every history of any number of workers, claims, crashes and retries, the tables of each REPORTED run are those one sound call committed for its fingerprint, and they verify exactly under the condition of its mode. |
| `RunHistories.NextFaithful` | internal/store/store.go:159-361 | Each step keeps that, and never replaces the rows of a run. |
| `RunHistories.ContentsForever` | internal/store/store.go:163-165 | The rows of a run that is done are the same at any later time. |
| `Storability.StorableIff` | migrations/001_init.sql:30-100 | In either mode the database accepts the tables exactly when the rows have their own places, there is at most one control row and it has a total, and no row uses a rule twice; rule references and lineage always hold. |
| `Storability.StrictStorableIff` | migrations/001_init.sql:30-100 | Under rules with different keys a strict run is accepted exactly when its input rows are: nothing that mapping computes can break a constraint. |
| `Storability.UntypedNeverStored` | migrations/001_init.sql:75 | A run that maps a transaction without a type is never stored: the second mapping repeats row and rule of the first. |
| `Counterexamples.GateSkipsOtherSettlements` | internal/store/store.go:138-144 | For any two amounts, a strict run for one settlement whose files also hold another: it passes its controls, is stored and reported, and verifies exactly when the two amounts of the other settlement are equal. |
| `Counterexamples.FailedRowUnverified` | internal/store/store.go:268-289 | A diagnostic run whose one payment fails after its first contribution: its groups agree, it is stored, and it does not verify. |
| `Counterexamples.UntypedPayment` | internal/mapping/engine.go:99-100 | A payment without a type and one catch-all rule: chosen twice, rejected in strict mode, mapped in diagnostic mode and refused by the database. |
| `EndToEnd.BucketGateEquivalent` | internal/store/verify.go:71-88 | With one currency in scope, the gate's bucket check is equivalent to a recomputation without bucket mismatches. |
| `VerifyBuckets.JoinIsPairs` | internal/store/verify.go:73 | Joining stored mappings to stored rows finds for each mapping the one row it was written for. |
| `VerifyBuckets.BucketSumIsGroups` | internal/store/verify.go:71-81 | A recomputed bucket of a key is the sum of that bucket over the in-scope groups of the key. |
| `VerifyBuckets.BucketCheckEquivalent` | internal/store/verify.go:82-88 | With one settlement and currency in scope, equal group buckets and an empty difference are equivalent. |
| `StrictVerification.MembershipVerifies` | internal/store/verify.go:56-67 | Members are exactly the transaction rows, each once. |
| `StrictVerification.ContributedIsWeight` | internal/store/store.go:283-289 | The stored contributions at a source and field sum to what the rows that did not fail send there in scope plus the partial contributions of those that did. |
| `Pipeline.RunRecon` | cmd/recon/main.go:321-466 | A run in either mode from parsed rows: what it commits is what its inputs determine, behind the controls of its mode and with its rules stored, and verifies under exactly the condition of its mode; when it stops, its inputs or the configuration give the reason and nothing changes. |
| `Pipeline.Reconcile` | cmd/recon/main.go:380-466 | The same after classification. |
| `Pipeline.Prepare` | cmd/recon/main.go:380-438 | Mapping, joining, the header control and merging: success yields the groups and the summary the inputs determine, and each kind of failure has its cause in them. |
| `Pipeline.CommitRun` | cmd/recon/main.go:462-466 | Persist on what was prepared: success means the verdict of the mode, failure one of five reasons. |
| `CurrencyScope.AustralianBucketGate` | internal/ingest/parser.go:200 | When the selected settlement is in Australian dollars, as payments always are, the bucket gate is equivalent to a recomputation without bucket mismatches. |
| `CurrencyScope.OneGroupPerKey` | internal/reconcile/reconcile.go:46-51 | In either mode, after currency inheritance and classification, in-scope rows of one source with equal keys fall in one group. |
| `Report.SumSummary` | internal/report/report.go:323-333 | The result is the checked fold along some walk of the map; a successful walk, in any order, gives the exact sum of one source's buckets, a failure means some partial sum does not fit, and no walk fails when the positive buckets alone and the negative buckets alone fit. |
| `Report.EveryWalkSucceedsIff` | internal/report/report.go:323-333 | Every order in which the map may be walked succeeds exactly when the positive buckets alone and the negative buckets alone fit. |
| `Report.SumFields` | internal/report/report.go:335-345 | A subtotal is the checked fold of the listed fields in order. |
| `Report.ControlDifference` | internal/report/report.go:298-306 | The control cell is the settlement buckets minus the header, exactly. |
| `Report.SettlementControl` | internal/report/report.go:298-306 | When the header equals the activity, settlement buckets minus header is the negated sum of the in-scope amounts whose chosen target is empty. |
| `Report.ControlCellExplained` | internal/report/report.go:294-307 | The same for the merged summary of a strict run: the control cell is zero exactly when the unrouted in-scope settlement amounts sum to zero. |
| `Report.BucketsHoldRouted` | internal/mapping/engine.go:73-87 | All buckets of a run in which no row fails, in whichever mode, together hold exactly what its in-scope rows route. |
| `Ingest.ValidatePaymentComponents` | internal/ingest/parser.go:373-396 | A record with all component columns passes exactly when each holds an amount, every running total fits, and they add up to its total; a record lacking a column passes unchecked. |
| `Ingest.CheckSum` | internal/ingest/parser.go:380-395 | The checked component loop, for any list of columns. |
| `Ingest.CollectControls` | internal/ingest/parser.go:342-351 | Succeeds exactly when no settlement has two metadata rows, and maps each settlement to its one. |
| `Ingest.InheritCurrency` | internal/ingest/parser.go:342-365 | In place: succeeds exactly when each transaction has a metadata row of its settlement that agrees with its currency; then it carries that currency and nothing else changes. |
| `Ingest.OneCurrencyPerSettlement` | internal/ingest/parser.go:352-364 | After a successful second pass all transactions of a settlement carry one currency. |
| `PaymentMoney.RoutedIsTotal` | internal/mapping/engine.go:157-236 | The routed contributions of a strictly mapped payment row sum to its total when the total is routed, whatever columns the record has, or when the parser checked its components and every non-zero one is routed by one field and no other field routes money. |
| `PaymentMoney.PaymentBucketsAreTotals` | internal/mapping/engine.go:73-87 | When that holds of every in-scope payment, all payment buckets together hold exactly the in-scope payment totals. |
| `Patch.CheckPatch` | internal/mapping/patch.go:70-84 | A patch loads exactly when every operation has a known source and action, a line of at least two, and no (source, line) repeats. |
| `Patch.CollectPlan` | internal/mapping/patch.go:128-136 | The plan holds exactly the operations of one source, by line; a repeated line is an error. |
| `Patch.PatchRecords` | internal/mapping/patch.go:140-175 | The record loop accepts exactly records of the right width whose planned operation is guarded by their old targets, and marks exactly the planned lines it met. |
| `Patch.FirstMissing` | internal/mapping/patch.go:176-180 | Finds a planned line that was not met exactly when there is one, in any order of the map. |
| `Patch.ApplyPlan` | internal/mapping/patch.go:137-180 | Records are published exactly when there is an operation, every record is accepted, and every operation hit one. |
| `Patch.ApplyPatch` | internal/mapping/patch.go:89-180 | The same from the operation list, for a known source. |
| `Patch.HitExactlyOne` | internal/mapping/patch.go:150-163 | In a published patch every operation hit exactly one record, whose old targets it named. |
| `Patch.PatchedLength` | internal/mapping/patch.go:164-174 | Exactly the targets of deletions are gone. |
| `Patch.PatchedRecords` | internal/mapping/patch.go:154-174 | Every other record keeps its place in the order and its fields, except the two targets of an updated one. |
| `Patch.InverseUndoes` | internal/mapping/patch.go:159-174 | Over line-labelled records, swapping old and new undoes an update-only patch. |
| `Routing.RowRerouted` | internal/mapping/engine.go:195-199 | When rule targets are replaced and both mappings succeed, each in its own mode, a row keeps its key, its parts and, contribution by contribution, everything but target and decision. |
| `Routing.MembersRerouted` | internal/reconcile/reconcile.go:52-81 | Group membership and group totals stay, and each bucket changes by exactly the moved amounts of its members. |
| `Routing.CorrectionMovesOnlyBuckets` | internal/mapping/patch.go:171-174 | For whole runs in which every row maps, before and after, in whichever modes (a diagnostic baseline and its strict correction, say): the same groups with the same rows and amounts; only buckets change, by exactly the amounts of the affected contributions. |
| `Routing.CorrectionKeepsTotal` | internal/mapping/patch.go:171-174 | When moreover no target changes between empty and non-empty, the total over all buckets is unchanged. |
| `ConfigStream.WriteStream` | internal/store/config.go:141-161 | The sorting and nested writing loops produce the stream of headers and rules that the determination results are about. |
| `ConfigStream.WriteParts` | internal/store/config.go:152-159 | Writing parts one by one appends their length-prefixed encoding. |
| `ConfigStream.ConfigBytesDetermine` | internal/store/config.go:141-161 | Streams hashed for two configurations are equal exactly when file hashes and the multisets of rules are, for known sources and distinct (source, file, line). |
| `ConfigStream.FingerprintBytesDetermine` | internal/store/store.go:364-385 | Run fingerprint streams are equal exactly when files, settlement, mode, version and the multisets of rules are. |
| `ConfigStream.StreamsAgree` | migrations/007_canonical_config_hash.sql:4-27 | For one origin file per source, distinct (source, file, line) and any collation, the bytes hashed in the database are the bytes hashed in Go exactly when no optional field of a rule is blank but not empty. |
| `ConfigStream.StoredRoundTrip` | internal/store/store.go:443-448 | Storing a rule and loading it gives it back exactly when no optional field is blank but not empty. |
| `ConfigStream.DatabaseBytesEncode` | migrations/007_canonical_config_hash.sql:9-27 | The aggregated SQL text is the length-prefixed stream of the two file hashes and of the rules read back, in database order. |
| `ConfigStore.ExecKeeps` | migrations/010_reassert_frozen_immutability.sql:4-47 | No statement on the configuration tables, whatever its arguments, changes the row, the file links or the rules of a frozen version; every statement keeps names, hashes and rule keys unique and every frozen hash current. |
| `ConfigStore.UpdateVersionKeeps` | migrations/007_canonical_config_hash.sql:29-41 | Freezing stores the digest of the version's content before the frozen guard runs; a frozen row cannot be updated. |
| `ConfigStore.DeleteVersionKeeps` | migrations/010_reassert_frozen_immutability.sql:24-32 | A version that is frozen, or that a rule or child refers to, cannot be deleted. |
| `ConfigStore.UpdateRuleKeeps` | migrations/010_reassert_frozen_immutability.sql:8-19 | A rule can be moved neither out of nor into a frozen version. |
| `ConfigTransactions.FrozenForever` | migrations/010_reassert_frozen_immutability.sql:34-47 | Over every history of imports, clones, fixes, runs and single statements, what belongs to a frozen version never changes and every frozen hash is the digest of the version's content. |
| `ConfigTransactions.NoSharedStream` | migrations/002_audit_lifecycle.sql:10 | In every reachable database no two frozen versions have the same stream. |
| `ConfigImports.ImportStores` | internal/store/config.go:97-138 | An import that makes a new version stores exactly the files and rules given, frozen under the digest of the SQL stream, not under the hash it computed itself. |
| `ConfigImports.ReimportByHash` | internal/store/config.go:71-80 | After any later history, importing the same content under the same name returns the same version and changes nothing exactly when the hash computed in Go is the stored one; otherwise it is an error. |
| `ConfigImports.ReimportIff` | internal/store/config.go:60-80 | Barring a digest collision, that is exactly when no optional field of a rule is blank but not empty. |
| `ConfigImports.ReimportLoaded` | cmd/recon/main.go:353-364 | For rules that LoadConfig loaded from two files, the only ones the program imports, importing again after any history always returns the frozen version; no collision is involved. |
| `ConfigReplay.ReadBackIff` | internal/store/config.go:175-190 | Reading back a version an import made, after any history, gives for each source the imported rules in configuration order exactly when no optional field is blank but not empty, and in general those rules with blank fields emptied. |
| `ConfigReplay.ReadBackLoaded` | cmd/recon/main.go:325-343 | For files loaded by LoadConfig, whether the import made or found the version, reading it back and splitting by source gives exactly the rules of each file, whatever order the database gives ties. |
| `ConfigReplay.HashedContent` | internal/store/config.go:67-94 | A frozen version found by the hash of some content holds that content, barring a collision. |
| `ConfigLoad.LoadConfig` | internal/mapping/config.go:14-86 | Loads exactly files with distinct headers, the required columns, full records and acceptable targets, one rule for each record. |
| `ConfigLoad.LoadRule` | internal/mapping/config.go:63-83 | One record: the trimmed cells of the columns of its source, or the reason it is refused. |
| `ConfigLoad.LoadedShape` | internal/mapping/config.go:48-67 | Loaded rules have no field of white space only, come from one file for each source, and have different keys. |
| `ConfigImports.StoreRulesOnFrozen` | internal/store/store.go:198-210 | A run on a frozen version can store its rules exactly when all are there, and then adds none. |
| `ConfigImports.StoredRulesFound` | internal/store/store.go:198-210 | Once a run has stored its rules, each is found under its version, and none that was there is lost. |
| `ConfigRevisions.CloneIff` | migrations/003_config_replay.sql:3-35 | Cloning succeeds exactly for a frozen parent and a free name; the child is a draft with the parent's links and rules and nothing else changes. |
| `ConfigRevisions.UnchangedCloneCannotFreeze` | migrations/002_audit_lifecycle.sql:10 | A clone cannot be frozen before it differs from its parent. |
| `ConfigRevisions.FixesExact` | migrations/003_config_replay.sql:37-149 | The procedure succeeds exactly on a draft without recorded fixes whose rules hit the guards two, four and one times and whose corrected content no other version has; then two rules are gone, five have new targets, all others and all other versions are as before, and the version is frozen. |
| `ConfigRevisions.FixesOnlyOnce` | migrations/003_config_replay.sql:52-58 | A second application fails, whatever happened in between. |
| `ConfigDatabase.Database.EnsureFrozenConfig` | internal/store/config.go:56-139 | Steps a version from absent to DRAFT to FROZEN or finds an existing one; on an error the tables are as before; what is frozen stays. |
| `ConfigDatabase.Database.ImportNew` | internal/store/config.go:97-131 | The import's statements run in order over the tables and are undone together on the first error. |
| `ConfigDatabase.Database.UpdateVersionRow` | migrations/007_canonical_config_hash.sql:29-41 | The canonical-hash trigger, then the frozen guard, then the constraints. |
| `ConfigDatabase.Database.UpdateRuleRow` | migrations/010_reassert_frozen_immutability.sql:4-22 | The child-row trigger on the old and the new owner, then the constraints. |
| `ConfigDatabase.Database.InsertRuleRow` | migrations/010_reassert_frozen_immutability.sql:14-19 | Rejects a frozen owner, an unknown source, an oversized line and a repeated key; otherwise appends the row. |
| `ConfigDatabase.Database.UpdateLinkRow` | migrations/010_reassert_frozen_immutability.sql:39-42 | The same triggers on file links. |
| `ConfigDatabase.Database.DeleteRuleRow` | migrations/010_reassert_frozen_immutability.sql:8-13 | Removes a rule unless its owner is frozen. |
| `ConfigDatabase.Database.DeleteVersionRow` | migrations/010_reassert_frozen_immutability.sql:44-47 | Removes a draft nothing refers to, with its links and fix records. |
| `ConfigDatabase.Database.DeleteMatchingRows` | migrations/003_config_replay.sql:69-75 | Removes exactly the rules of one version that a defect's guard names. |
| `ConfigDatabase.Database.RetargetMatchingRows` | migrations/003_config_replay.sql:94-103 | Replaces the two targets of exactly the rules of one version that a defect's guard names. |
| `ConfigDatabase.Database.ApplyGuarded` | migrations/003_config_replay.sql:69-81 | One defect: change, check the number of changed rows, record. |
| `ConfigDatabase.Database.Execute` | migrations/010_reassert_frozen_immutability.sql:4-47 | Runs one statement on the tables in place; a rejected one changes nothing. |
| `ConfigDatabase.Database.StoreRunRules` | internal/store/store.go:198-210 | Looks every rule of a run up and inserts the missing ones, all or nothing. |
| `ConfigDatabase.Database.StoreRunConfig` | internal/store/store.go:177-210 | The data files of a run and then its rules, all or nothing. |
| `ConfigDatabase.Database.CloneConfigVersion` | migrations/003_config_replay.sql:3-35 | Copies a frozen version into a new draft, all or nothing. |
| `ConfigDatabase.Database.ApplyMappingFixes` | migrations/003_config_replay.sql:37-149 | Applies the three guarded corrections and freezes, all or nothing. |
| `ConfigDatabase.Database.LookupConfigVersion` | internal/store/config.go:163-173 | Finds a version by name exactly when it exists and is frozen. |
| `ConfigDatabase.Database.LoadRules` | internal/store/config.go:175-190 | Reads the rules of a version in the order of source and line, with NULLs as empty text. |
| `ConfigDatabase.Database.LoadConfigVersion` | cmd/recon/main.go:325-343 | Succeeds exactly for the name of a frozen version with rules of both sources, and gives its rules split by source. |
| `ConfigDatabase.SplitBySource` | cmd/recon/main.go:333-340 | The rules of each source, in order. |
| `RunStore.EveryInterleavingSafe` | internal/store/store.go:159-177 | Under any interleaving of claims, retries, bodies, failures, lost acknowledgements, crashes and reports: one run for each fingerprint, at most one live worker engaged with a claimed run, a run's rows there exactly once if it is done and never otherwise, stage and status always paired, reports for exactly the REPORTED runs. |
| `RunStore.StepKeeps` | internal/store/store.go:387-433 | Every single step keeps that and undoes nothing: done runs stay done, REPORTED ones REPORTED, attempts grow only by granted retries. |
| `RunStore.ClaimKeeps` | internal/store/store.go:387-425 | The claim, in all its branches and commit outcomes. |
| `RunStore.BodyKeeps` | internal/store/store.go:355-361 | The body sets the stage without looking at it, and still only on a claimed run held by its worker alone. |
| `RunStore.MarkKeeps` | internal/store/store.go:427-433 | Marking a run failed after a lost acknowledgement never touches a run that is done. |
| `RunStore.ReportKeeps` | internal/store/artifact.go:18-24 | Registering a report, whenever it takes effect, leaves its run REPORTED with the status of its mode and the report under the given path, changes no other run, and keeps the database safe; otherwise nothing changes. |
| `RunStore.AttemptsCountRetries` | internal/store/store.go:415-423 | The attempt number is one more than the number of retries granted over the run's whole history. |
| `RunStore.DoneForever` | internal/store/store.go:409-414 | A done run stays done and keeps its rows, whatever happens next. |
| `RunStore.BodyFindsNoRows` | internal/store/store.go:190 | The body never meets rows of an earlier attempt. |
| `RunStore.DoneRunsAreReturned` | internal/store/store.go:409-414 | Asking for a done run returns it and changes nothing, whoever asks and whenever. |
| `RunStore.OrphansStayClaimed` | internal/store/store.go:415-424 | A claim nobody holds is never taken over, not even with --retry. |
| `RunDatabase.RequestBytesIff` | internal/store/store.go:376-383 | Two requests have one fingerprint text exactly when they ask for the same thing, in whatever order the rules come. |
| `RunDatabase.SharedRunIff` | internal/store/store.go:394-414 | Once a request's run is done, a later request is given that run, without any change, exactly when it asks for the same thing, barring a collision. |
| `RunDatabase.Database.InsertRun` | internal/store/store.go:394-400 | Inserts a CLAIMED run at its first attempt unless its name is taken or its mode unknown; the worker holds it only when it learns of the commit. |
| `RunDatabase.Database.ClaimExisting` | internal/store/store.go:404-424 | A done run is returned, a failed one is taken up again only with --retry, any other is refused. |
| `RunDatabase.Database.Claim` | internal/store/store.go:387-425 | Inserts, finds or retries in place as the claim step says, and keeps every interleaving safe. |
| `RunDatabase.Database.PersistBody` | internal/store/store.go:355-361 | The body's commit and what its outcome means for the worker. |
| `RunDatabase.Database.MarkRunFailed` | internal/store/store.go:427-433 | Fails the run only while it is CLAIMED; the worker gives up either way. |
| `RunDatabase.Database.RegisterReport` | internal/store/artifact.go:8-25 | Upserts the artifact and advances the stage in one step. |

## Left out

- CSV and TSV syntax, header normalisation, byte offsets, file hashing, temporary files and renames: the model starts from parsed records.
- Parsing of dates (internal/ingest/dates.go): a key date is an opaque string.
- Workbooks, styles and cell text, and the floating-point `reportAmount`: only the integer sums are modelled.
- SHA-256 itself, pgx, SQL planning and transaction isolation: a digest is an arbitrary function, a transaction one atomic step.
- Collation: `ConfigStream.StreamsAgree` assumes one origin file for each source, so that file names are never compared.
- Letter case, white space and the LIKE wildcard are those of ASCII; full Unicode folding is not modelled.
- Raw and canonical payloads, byte spans, line ends, timestamps and event classes of stored rows, and `releaseRawMaps`, which frees what no later step reads.
- Foreign keys to `summary_fields`, `run_files` and issue texts: an issue is kept as data, and its text is not formatted.
- A direct INSERT of a version that is already FROZEN, which no trigger stops and no operation performs; updates of `source_files`, which no operation performs; times such as `frozen_at`; notes.
- `config_fix_history` keeps which defects were recorded, not their snapshots; `config_hash_history` and the one-time backfill of migration 008 are not modelled.
- Failure details of a run (`error_code`, `error_detail`), `completed_at`, and the foreign key of a run to its configuration version.
- Liveness: a claim whose worker is gone stays claimed (`RunStore.OrphansStayClaimed`), so only safety is proved.
- The order in which `sort.Slice` leaves rows with equal lines: results hold for every such order, and `Groups.GroupingUnique` and `InputOrder.RunIgnoresOrder` ask that lines identify rows.
- Which of several failures a run reports first inside `Persist.StoreTables`: only whether it fails, and that nothing is then stored, is stated.
- `Migrate` and advisory locks, `Explain`, command-line flags, memory profiling, workbook verification: none of them computes or stores reconciled money.
- PersistRun: leaves out the claim before it and the failure mark after it, which are `RunDatabase.Database.Claim` and `RunDatabase.Database.MarkRunFailed`; over values, `RunHistories` joins claims, bodies and marks into one history.
- ReportedRunsVerify: assumes that no two different requests of a history have one SHA-256 digest.
- LoadConfig: starts from a normalised header and the fields of each record; that records start on different lines is a property of CSV.
- GroupTable.BuildGroups: returns the values of its groups instead of pointers to them; no caller updates a group afterwards.

Nothing was executed: every statement is proved by the Dafny verifier.
