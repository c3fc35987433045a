# Colony simulation core: a verified model

This project models the decision-making core of a C++ colony simulation: its save format and save
migration, its order book and market, its hand-written JSON reader and printer, settlements and
caravans moving through ticks, money, contracts and the ledger, the engine that ties them together,
and the replay of command logs through an authority gate. Everything is proved with Dafny 4.11;
`dafny verify dfyconfig.toml` checks the whole project.

Each source object whose methods change its fields is a class here (`ResourceStorage`,
`SettlementState`, `MarketState`, `EconomyLedger`, `Wallet`, `ContractCatalog`, `CaravanState`,
`SimulationEngine`, `SimulationRuntime`, `Review`), and each source loop is a loop. Every method is
proved to compute a function of its inputs or of the old state, and the theorems about whole runs are
lemmas about those functions. Where such a function is more than its type tells, a law fixes it from the
raw fields of its inputs, without naming it: the files called `...Terms`, `...Rates` and `...Acceptance`.

| files | what they hold |
|---|---|
| `U64`, `Lookup`, `Sorting`, `Text`, `Records` | 64-bit arithmetic and the tick clock, linear search, ordering and sorting, splitting and numbers, plain records |
| `Escaping`, `SnapshotCodec`, `SnapshotRoundTrip`, `SnapshotAcceptance` | the snapshot save format, its round trip, and which texts it accepts |
| `SaveMigration`, `LineDiff` | classifying and migrating saves, counting line differences |
| `ActionJson`, `JsonTerms`, `ActionResultJson`, `ActionObjects`, `ResultDetails` | the JSON field and object finders and what they find in any text, the result printer, and reading back what was printed |
| `Orders` | matching buy and sell orders |
| `DataRegistry`, `Storage`, `Settlement`, `SettlementLaws`, `SettlementFlows`, `SettlementRates`, `SettlementReports` | goods, settlement ticks, what ticks conserve, how much is eaten and made, and reports |
| `Market`, `MarketListing`, `MarketTerms`, `Pressure`, `Aggregate` | prices, the price list and report, market pressure, pooled stock |
| `Ledger`, `Trade`, `Contracts` | ledgered trade and the contract state machine |
| `Caravans`, `Planner`, `EconomyTerms`, `EconomyRuns` | caravan motion and cargo, fulfilment from caravans, the planner that predicts it, the terms of each operation, and runs over trade, contracts and caravans |
| `Engine`, `EngineTerms`, `EngineRuns`, `EngineFlows`, `EngineSnapshots` | commands, days, saving and restoring, what each does field by field, runs over them, and what a saved snapshot tells |
| `Dispatch`, `ActionRequests`, `ActionTerms`, `Authority`, `AuthorityTerms`, `Sequences`, `Replay`, `ReplaySafety` | actions and their JSON requests, permissions, the verdicts on a log, audit sequences, and replay of logs |

## Main results

- Any text at all loads as a snapshot without an error if and only if its lines are well formed, each told
  from its own fields, and then holds what they say (`SnapshotAcceptance.AcceptedExactly`,
  `SnapshotAcceptance.AcceptedHolds`).
- In any text, well formed or not, the JSON readers find exactly the first key at depth one of that name, and
  its string, number or object (`JsonTerms.FoundExactly` and the three after it).
- Over any run a settlement eats one unit a day for every ten people begun, to the last fraction, if and only
  if the grain suffices (`SettlementRates.PeopleEatExactly`).
- Over any log, each entry is turned away for the first condition on its own fields that fails, and nothing
  then happens (`AuthorityTerms.LogVerdicts`).
- Any snapshot, whatever its strings, is read back exactly, if and only if no settlement with rows repeats
  an earlier id (`SnapshotRoundTrip.SnapshotRoundTrip`); what is read back from a saved engine tells it from
  every engine that is not alike (`EngineSnapshots.SavedEngineIsRecognized`).
- Matched orders clear every resource at some price, no uniform price trades more, and what is traded could
  not have been bought for less (`Orders.MatchedOutcome`), for any order of ties (`Orders.TiesDoNotMatter`);
  nobody pays more than its limit for its own units (`Orders.PaidWithinLimit`).
- An action sent as JSON does to the engine what the action does, and the printed reply reads back what
  happened, whatever characters are in it (`ActionRequests.RequestIsCarriedOut`, `ActionRequests.ReplyTells`).
- Over any run of trades, deliveries and caravans, coins and stock reconcile with the ledger
  (`EconomyRuns.RunReconciles`), and contracts are paid exactly once if and only if none is marked by hand or
  delivered off the ledger (`EconomyRuns.PaidExactlyOnceExactly`).
- Over any run of an engine, every resource in the world is accounted for (`EngineFlows.RunBalances`), and
  every building earns what it needs (`EngineFlows.EveryBuildingEarnsWhatItNeeds`).
- Every engine reachable with registered demands is restored exactly by its own export
  (`EngineRuns.ReachableEnginesRestore`).
- Prices are monotone up to n if and only if base times n fits, with one exception
  (`Market.PriceMonotoneExactly`); accumulators lose nothing if and only if no step saturates
  (`SettlementLaws.AccumulatorsConserve`); tick reports balance if and only if the buildings keep to 86400
  mentions of inputs and of outputs (`SettlementFlows.BooksBalanceExactly`).
- Erasing rejected entries from a log changes nothing else (`Replay.ErasingRejectedEntries`), and over any
  log without days nobody takes from a settlement they neither own nor override
  (`ReplaySafety.StrangersTakeNothing`).

## Where the code falls short of what one would expect

The code is modelled as it is. Where a natural property fails, the model says exactly when it holds:

- Two settlements sharing an id do not survive a save: stock and building rows come back on the first
  of them (`SnapshotRoundTrip.SnapshotRoundTrip`, `SnapshotRoundTrip.SharedIdLosesItsRows`).
- Migrating a save without a `day` row puts the time row in front of the header, and the result cannot
  be loaded (`SaveMigration.MigrationSucceedsExactly`, `SaveMigration.HeaderOnlyMigrationFails`); a line
  ending in two CRs loses one on each migration (`SaveMigration.MigrationIdempotentExactly`,
  `SaveMigration.DoubleCrIsNotIdempotent`).
- Once a product saturates, prices can fall as demand rises (`Market.PriceMonotoneExactly`,
  `Market.SaturationBreaksMonotonicity`), the average price can drop below the lowest price
  (`MarketListing.AverageBounds`, `MarketListing.AverageBelowLowest`), and a gap that cannot be scaled is
  overstated (`Pressure.BasisPointsExactly`, `Pressure.WideGapIsOverstated`).
- A stretch of time that saturates earns differently when it is cut (`SettlementLaws.PartitionInvariance`,
  `SettlementLaws.SaturatedHalvesEarnMore`), and a tick report can stop balancing once its buildings
  mention more than 86400 inputs or 86400 outputs (`SettlementFlows.BooksBalanceExactly`,
  `SettlementFlows.OneMoreProductUnbalances`, `SettlementFlows.OneMoreInputUnbalances`).
- Pooled stock leaves out a whole settlement's amount when it does not fit (`Aggregate.PooledExactly`,
  `Aggregate.SecondHoardIsLeftOut`).
- A building that lists an input twice is declared ready on one portion and runs on it
  (`SettlementLaws.DrawsInFullExactly`, `SettlementLaws.RepeatedInputIsUnderdrawn`).
- A caravan with a part day left fails its own validation (`Caravans.StaysValidExactly`, `Caravans.PartDayIsInvalid`).
- A contract marked fulfilled by hand, or delivered through an operation that writes no ledger entry, is never
  among the payouts (`EconomyRuns.PaidExactlyOnceExactly`, `EconomyRuns.DirectMarkIsNeverPaid`,
  `EconomyRuns.UnledgeredDeliveryIsNeverPaid`, `EconomyRuns.QuietDeliveryIsNotPaid`).
- The planner says yes to an open contract for nothing (`Planner.StoragePlanPredictsExactly`,
  `Planner.EmptyContractIsMisplanned`), and to an owned caravan when no faction is named
  (`Planner.OwnedPlanAgreesExactly`, `Planner.NobodysCaravanIsMisplanned`); the executor refuses both.
- The market accepts demand for unregistered resources, after which the engine's own export is refused
  (`EngineRuns.ExportRestoresExactly`, `EngineRuns.UnregisteredDemandBlocksRestore`).
- An actor with an empty list of granted actions holds every explicit grant (`Authority.GrantIsRequiredExactly`,
  `Authority.UnlistedActorMayBuild`).
- Audit numbers that wrap from the largest to zero count as contiguous
  (`Sequences.ContiguousIncreasesExactly`, `Sequences.WrapIsContiguousButNotIncreasing`).

## Model

| member | source | states |
|---|---|---|
| U64.SatMul | src/clc/economy/Market.cpp:20-25 | the division test `b > MAX / a` saturates exactly the true product |
| U64.MulOverflowsExactly | src/clc/economy/Orders.cpp:11-13 | the overflow test holds exactly when the true product exceeds 2^64 - 1 |
| U64.DaysToTicks | include/clc/core/Time.hpp:40-80 | days convert to ticks at 86400 each, saturating |
| Text.SplitTabLine | src/clc/sim/SimulationPersistence.cpp:77-90 | splits into the one list of tab-free fields that joins back to the line |
| Text.JoinSplit | src/clc/sim/SimulationPersistence.cpp:77-90 | splitting is the unique inverse of joining: the pieces are free of the separator and join to the text |
| Text.SplitJoin | src/clc/sim/SimulationPersistence.cpp:77-90 | joining separator-free fields and splitting gives the same fields |
| Text.ParseUint64 | src/clc/sim/SimulationPersistence.cpp:92-111 | accepts exactly non-empty digit strings up to 2^64 - 1, with their value |
| Text.ParseDec | src/clc/sim/SimulationPersistence.cpp:92-111 | reading back a printed number gives the number, for every 64-bit number |
| Escaping.EscapeField | src/clc/sim/SimulationPersistence.cpp:14-36 | computes the percent-escaped text |
| Escaping.UnescapeField | src/clc/sim/SimulationPersistence.cpp:51-75 | decodes valid triplets, and stops at the first malformed one with one error, dropping everything from there on |
| Escaping.UnescapeEscape | src/clc/sim/SimulationPersistence.cpp:14-75 | unescaping an escaped field gives back any string at all, with no error |
| Escaping.EscapesExactly | src/clc/sim/SimulationPersistence.cpp:14-36 | wherever they stand, four characters are written as their codes and every other as itself |
| Escaping.EscapeIsClean | src/clc/sim/SimulationPersistence.cpp:14-36 | an escaped field holds no TAB, LF or CR |
| SnapshotCodec.SerializeSnapshot | src/clc/sim/SimulationPersistence.cpp:138-215 | prints the rows of a snapshot in order, escaped, tab-separated and LF-terminated |
| SnapshotCodec.DeserializeSnapshot | src/clc/sim/SimulationPersistence.cpp:217-361 | folds every non-empty line into the result by its tag, counting errors and warnings |
| SnapshotRoundTrip.PrintedSnapshotReads | src/clc/sim/SimulationPersistence.cpp:152-361 | reading a printed snapshot gives no error and no warning, and returns it with rows moved to the first bearer of each id |
| SnapshotRoundTrip.SnapshotRoundTrip | src/clc/sim/SimulationPersistence.cpp:152-361 | the round trip is the identity if and only if no settlement with rows repeats an earlier id |
| SnapshotRoundTrip.DistinctIdsRoundTrip | src/clc/sim/SimulationPersistence.cpp:152-361 | with distinct settlement ids, reading back gives the snapshot itself for arbitrary strings |
| SnapshotRoundTrip.SaveThenLoad | src/clc/sim/SimulationPersistence.cpp:152-361 | the printer followed by the parser, as methods, meets the same condition |
| SnapshotRoundTrip.SharedIdLosesItsRows | src/clc/sim/SimulationPersistence.cpp:268-304 | two settlements sharing an id do not come back as they were |
| SnapshotAcceptance.UnescapeExactly | src/clc/sim/SimulationPersistence.cpp:51-75 | a field reads without an error if and only if every percent sign starts a pair of hexadecimal digits, and then as the characters these stand for |
| SnapshotAcceptance.AcceptedExactly | src/clc/sim/SimulationPersistence.cpp:217-361 | any text loads without an error if and only if its first non-empty line is the header and every line has a known tag, that tag's fields, numbers within their width, paired percent signs, and names an earlier settlement where it must |
| SnapshotAcceptance.AcceptedHolds | src/clc/sim/SimulationPersistence.cpp:217-361 | the snapshot then holds what the lines say: the last day, the last market totals, and every settlement, stock, building, price and event row field by field, in order, stock and buildings with the first settlement of that id |
| SnapshotAcceptance.OtherRowsAreErrors | src/clc/sim/SimulationPersistence.cpp:238-345 | a row before any header, of an unknown tag or of the wrong length is one error and changes nothing else |
| SnapshotAcceptance.WarnedExactly | src/clc/sim/SimulationPersistence.cpp:307-358 | the one warning is given, whatever else is wrong, if and only if no complete market row follows a header |
| SaveMigration.SplitContent | src/clc/sim/SimulationPersistenceReplay.cpp:13-33 | splits at LF, drops one trailing CR per line, drops empty lines |
| SaveMigration.ReviewSaveFormat | src/clc/sim/SimulationPersistenceReplay.cpp:170-227 | finds header, version, time row and legacy rows, counts the errors and warnings exactly, and classifies the save accordingly |
| SaveMigration.ReviewCountsExactly | src/clc/sim/SimulationPersistenceReplay.cpp:170-227 | how many errors, warnings and groups of older rows a review counts, for any lines |
| SaveMigration.MigrateContent | src/clc/sim/SimulationPersistenceReplay.cpp:229-280 | inserts a missing time row; succeeds exactly for supported saves with a time or a day row; errors, inserted rows and legacy row groups are counted exactly |
| SaveMigration.MigrationSucceedsExactly | src/clc/sim/SimulationPersistenceReplay.cpp:229-280 | the migrated save is loadable and has a time row if and only if there was a time or day row |
| SaveMigration.HeaderOnlyMigrationFails | src/clc/sim/SimulationPersistenceReplay.cpp:229-280 | a save holding only its header is migrated into one that cannot be loaded |
| SaveMigration.MigrationKeepsLines | src/clc/sim/SimulationPersistenceReplay.cpp:246-266 | every original line stays, in order; at most one row is added, right after the first day row |
| SaveMigration.SupportedExactly | src/clc/sim/SimulationPersistenceReplay.cpp:170-227 | a save can be loaded if and only if its first row is two fields, the format's name and the number one |
| SaveMigration.MigratedTextTells | src/clc/sim/SimulationPersistenceReplay.cpp:236-266 | where the time row is missing, the text gains exactly one line, after the first row tagged `day` or in front: `time` and 86400 times the number in the first readable day row, capped at 2^64 - 1, or 0 |
| SaveMigration.MigrationIdempotentExactly | src/clc/sim/SimulationPersistenceReplay.cpp:229-280 | migrating again changes nothing if and only if no line of a migratable save ends in two CRs |
| SaveMigration.DoubleCrIsNotIdempotent | src/clc/sim/SimulationPersistenceReplay.cpp:13-33 | a concrete save that a second migration changes |
| LineDiff.CountLineMismatches | src/clc/sim/SimulationPersistenceReplay.cpp:102-128 | the sorted merge counts the multiset symmetric difference of the two line lists |
| LineDiff.MismatchesLaws | src/clc/sim/SimulationPersistenceReplay.cpp:102-128 | the count is symmetric, and zero exactly for rearrangements |
| LineDiff.MismatchesTriangle | src/clc/sim/SimulationPersistenceReplay.cpp:102-128 | the count obeys the triangle inequality |
| Orders.ValidateOrder | src/clc/economy/Orders.cpp:21-39 | reports no error exactly for named orders of positive quantity and price whose value fits 64 bits |
| Orders.RemoveInvalid | src/clc/economy/Orders.cpp:44-64 | keeps exactly the valid orders, in order |
| Orders.KeptExactly | src/clc/economy/Orders.cpp:21-64 | of the orders submitted those stay, as often as they were, that name a resource, a quantity and a price whose product 64 bits hold |
| Orders.OrderErrorsCounted | src/clc/economy/Orders.cpp:21-39 | one error for each thing missing, and one for a value that does not fit |
| Orders.Execute | src/clc/economy/Orders.cpp:94-113 | one trade fills the smaller side at the seller's limit; the overflow branch cannot be reached |
| Orders.MatchSorted | src/clc/economy/Orders.cpp:80-115 | the nested loops leave no crossing pair of one resource with quantity on both sides |
| Orders.ClearingPriceExists | src/clc/economy/Orders.cpp:66-115 | for every resource some price serves everyone better in full and nobody worse |
| Orders.VolumeIsMaximal | src/clc/economy/Orders.cpp:66-115 | the traded volume is what a uniform clearing price trades, and no uniform price trades more |
| Orders.MatchedOutcome | src/clc/economy/Orders.cpp:66-115 | every resource clears, no uniform price trades more, and what is traded could not have been bought for less, for the orders as submitted, whatever the order of ties |
| Orders.LeastMoneyIsLeast | src/clc/economy/Orders.cpp:94-113 | no way of taking the traded units from the sells costs less than what was paid |
| Orders.TiesDoNotMatter | src/clc/economy/Orders.cpp:66-115 | however ties are broken, the same volume is traded for the same money |
| Orders.PaidWithinLimit | src/clc/economy/Orders.cpp:94-113 | no buyer pays more than its limit for each unit its own order was filled by, hence never more than its whole order is worth |
| Orders.ReceivesItsLimit | src/clc/economy/Orders.cpp:94-113 | every seller receives exactly its limit for each unit its own order was filled by |
| Orders.TotalsTell | src/clc/economy/Orders.cpp:66-115 | the totals a result shows, modulo 2^64, are the sums of the quantities and of the prices of its trades |
| Orders.MatchOrders | src/clc/economy/Orders.cpp:41-118 | the whole operation: rejects are counted, the trades of every single order add up to what it was filled by, totals are the sums modulo 2^64, prices lie between the limits, every resource clears, and the money paid is the least possible |
| ActionJson.UnescapeJsonString | src/clc/sim/ActionBridge.cpp:26-50 | decodes backslash escapes as the decoding function does |
| ActionJson.UnescapeEscape | src/clc/sim/ActionBridge.cpp:26-50 | unescaping an escaped string gives it back |
| ActionJson.EscapesExactly | src/clc/sim/ActionBridge.cpp:227-241 | wherever they stand, five characters are written with a backslash and every other as itself |
| ActionJson.UnescapesExactly | src/clc/sim/ActionBridge.cpp:26-50 | what a backslash and any character after it stand for, and that a backslash at the end is dropped |
| ActionJson.FindStringEnd | src/clc/sim/ActionBridge.cpp:59-76 | finds the first unescaped closing quote, or none |
| ActionJson.FindFieldValueStart | src/clc/sim/ActionBridge.cpp:78-122 | finds the value after the first depth-one key equal to the field name |
| ActionJson.FindStringField | src/clc/sim/ActionBridge.cpp:128-155 | returns the decoded string value of the field, or none |
| ActionJson.FindUintField | src/clc/sim/ActionBridge.cpp:157-182 | returns the maximal digit run as a bounded number when it ends properly, or none |
| JsonTerms.FoundExactly | src/clc/sim/ActionBridge.cpp:78-122 | in any text, well formed or not, the finder gives what follows the colon of the first string at depth one that spells the field and has a colon after at most blanks, and nothing if there is none |
| JsonTerms.StringExactly | src/clc/sim/ActionBridge.cpp:128-155 | a field reads as a string if and only if its value, after blanks, is a closed string, and then as that string decoded |
| JsonTerms.NumberExactly | src/clc/sim/ActionBridge.cpp:157-182 | a field reads as a number if and only if its value, after blanks, is digits that 64 bits hold, with at most blanks before a comma, a brace or the end |
| JsonTerms.ObjectExactly | src/clc/sim/ActionBridge.cpp:184-225 | a field reads as an object if and only if its value, after blanks, opens a brace that closes again, and then as the text up to there |
| ActionResultJson.ResultToJson | src/clc/sim/ActionBridge.cpp:482-539 | prints the result object with its nested command, events and diagnostics |
| ActionResultJson.ObjectScan | src/clc/sim/ActionBridge.cpp:78-122 | on a printed object the scanner finds exactly the members of the outer object |
| ActionResultJson.IdentityReadsBack | src/clc/sim/ActionBridge.cpp:128-155 | action id and type read back exactly, whatever characters they hold |
| ActionResultJson.OutcomeReadsBack | src/clc/sim/ActionBridge.cpp:128-155 | status, error code and message read back exactly |
| ActionResultJson.CountsReadBack | src/clc/sim/ActionBridge.cpp:162-182 | the event and diagnostic counts read back exactly |
| ResultDetails.FlagsRead | src/clc/sim/ActionBridge.cpp:486-503 | the scanner finds the words true or false for the result and for its command |
| ResultDetails.ListsRead | src/clc/sim/ActionBridge.cpp:509-536 | the lists hold the events and the diagnostics one by one, in order, and every field of each reads back |
| ActionResultJson.OnlyOuterKeysAreFound | src/clc/sim/ActionBridge.cpp:482-539 | a field is found if and only if it is one of the outer keys, however deep its name occurs inside |
| ActionObjects.FindObjectField | src/clc/sim/ActionBridge.cpp:184-225 | cuts out the object that is the value of a field, or finds none |
| ActionObjects.CommandIsCutOut | src/clc/sim/ActionBridge.cpp:184-225 | on a printed result the object finder returns exactly the printed command, or nothing when no command was run |
| ActionObjects.CommandReadsBack | src/clc/sim/ActionBridge.cpp:482-539 | the fields of the command read back exactly from the piece cut out |
| Storage.ResourceStorage.Add | src/clc/sim/Storage.cpp:9-34 | adds exactly, or reports an error and changes nothing |
| Storage.ResourceStorage.TryRemove | src/clc/sim/Storage.cpp:36-51 | removes all or nothing; an entry reaching zero disappears |
| Storage.ResourceStorage.RemoveUpTo | src/clc/sim/Storage.cpp:53-69 | removes the smaller of stock and request |
| Storage.Transfer | src/clc/sim/Storage.cpp:87-121 | moves goods between two storages or changes neither |
| Storage.AddThenRemove | src/clc/sim/Storage.cpp:9-51 | adding and removing undo each other on proper storages |
| Storage.TotalAfter | src/clc/sim/Storage.cpp:9-69 | each operation changes the total stock by exactly the amount moved |
| Settlement.SettlementState.AddBuilding | src/clc/sim/Settlement.cpp:105-120 | appends the building exactly when it is defined and not overstaffed |
| Settlement.SettlementState.ConsumeScaledUnits | src/clc/sim/Settlement.cpp:35-66 | earns whole units and carries the remainder under its key |
| Settlement.SettlementState.ConsumeInputs | src/clc/sim/Settlement.cpp:81-95 | draws the requirement from each listed input in turn |
| Settlement.SettlementState.TickOneBuilding | src/clc/sim/Settlement.cpp:142-198 | one building's step: skipped, idle, or run |
| Settlement.SettlementState.AdvanceTicks | src/clc/sim/Settlement.cpp:122-201 | a tick feeds the population and then runs every building in order |
| SettlementRates.TickEats | src/clc/sim/Settlement.cpp:28-140 | with u the one number for which 10 u reaches the population and 10 (u - 1) does not, a tick eats what u a day come to, the fraction carried over, if and only if the grain suffices; if it is short, all the grain is eaten and there is a warning |
| SettlementRates.PeopleEatExactly | src/clc/sim/Settlement.cpp:28-140 | over any run 86400 times what was eaten plus the carry is at most the initial carry plus u times the time, and equal to it if and only if the grain suffices at every tick |
| SettlementRates.IdleTurn | src/clc/sim/Settlement.cpp:142-155 | a building nobody knows, or without workers or slots, is skipped with a warning and changes nothing else |
| SettlementRates.BusyTurn | src/clc/sim/Settlement.cpp:142-198 | any other building earns, on both sides, what its workers or its slots, whichever are fewer, make of the time; a short input skips it with a warning; else it draws and stores exactly that of each resource, and counts what it moved |
| SettlementRates.FailuresAreNotStored | src/clc/sim/Settlement.cpp:183-196 | what is produced is the amount made for each output, less those that did not fit, each of which is a warning |
| Settlement.CarryTells | src/clc/sim/Settlement.cpp:35-57 | a carry is what the first entry of its key holds, and nothing before there is one |
| SettlementLaws.AccumulatorsConserve | src/clc/sim/Settlement.cpp:44-66 | over any steps 86400 times the units plus the carry is at most the initial carry plus rate times time, and equal to it if and only if no single step saturates on the carry it starts from |
| SettlementLaws.PartitionInvariance | src/clc/sim/Settlement.cpp:44-66 | two cuts of one stretch of time, the one without saturating, earn and carry the same if and only if the other does not saturate either |
| SettlementLaws.SplitExactly | src/clc/sim/Settlement.cpp:44-66 | with saturation, one cut is harmless if and only if the stretch fits, the first part earns nothing, or the second is empty |
| SettlementLaws.SaturatedHalvesEarnMore | src/clc/sim/Settlement.cpp:44-66 | a saturating stretch taken in two halves is not what it is taken at once |
| SettlementLaws.AccrueKeepsLockstep | src/clc/sim/Settlement.cpp:150-164 | from equal carries, the input required equals the output earned, and the carries stay equal |
| SettlementLaws.RequiredIsEarned | src/clc/sim/Settlement.cpp:142-173 | at the turn of every building in a tick, after any earlier ticks, the input required is the output earned |
| SettlementLaws.RunKeepsCarriesEqual | src/clc/sim/Settlement.cpp:142-173 | the input and output carries of every definition stay equal over any ticks |
| SettlementLaws.TurnsMakeATick | src/clc/sim/Settlement.cpp:142-198 | a tick is the turns of its buildings, one after another |
| SettlementLaws.TickConserves | src/clc/sim/Settlement.cpp:122-201 | stock after plus food and inputs consumed is stock before plus output produced |
| SettlementLaws.ReportBalancesExactly | src/clc/sim/Settlement.cpp:122-201 | whatever the settlement, its report balances if and only if the two saturated counters lose the same amount |
| SettlementLaws.DrawsInFullExactly | src/clc/sim/Settlement.cpp:68-95 | a building draws its full requirement if and only if the stock covers repeated mentions |
| SettlementLaws.DistinctInputsDrawInFull | src/clc/sim/Settlement.cpp:68-95 | with distinct inputs the readiness check guarantees the full draw |
| SettlementLaws.RepeatedInputIsUnderdrawn | src/clc/sim/Settlement.cpp:68-95 | an input listed twice is drawn once |
| SettlementLaws.SkippedTakesNothing | src/clc/sim/Settlement.cpp:142-175 | a skipped building takes and makes nothing |
| SettlementFlows.DrawnExactly | src/clc/sim/Settlement.cpp:81-95 | drawing takes of each resource exactly the required amount for every mention the stock covers |
| SettlementFlows.StoredExactly | src/clc/sim/Settlement.cpp:183-196 | storing adds of each resource exactly the amount made for every mention that fits |
| SettlementFlows.TickBalances | src/clc/sim/Settlement.cpp:122-201 | of each resource, stock after plus eaten plus used is stock before plus made |
| SettlementFlows.SmallSettlementsBalance | src/clc/sim/Settlement.cpp:122-201 | if the buildings mention at most 86400 inputs and 86400 outputs in all, the report counts exactly and balances, for every stock, carry and tick length |
| SettlementFlows.BooksBalanceExactly | src/clc/sim/Settlement.cpp:122-201 | all settlements with at most m input and n output mentions have reports that balance on every tick if and only if m and n are at most 86400 |
| SettlementFlows.OneMoreProductUnbalances | src/clc/sim/Settlement.cpp:122-201 | a mill with 86401 outputs, named one by one, has a tick whose report does not balance |
| SettlementFlows.OneMoreInputUnbalances | src/clc/sim/Settlement.cpp:122-201 | and so has a mill with 86401 inputs, all in stock |
| SettlementReports.MakeSettlementReport | src/clc/sim/Settlement.cpp:207-240 | lists the stock once each and the buildings, both sorted, with the saturated total |
| SettlementReports.ReportShows | src/clc/sim/Settlement.cpp:207-240 | both lists ascend, and every building row is that of as many buildings, with the name and slots of its definition or without any if that is unknown |
| SettlementReports.ReportTells | src/clc/sim/Settlement.cpp:207-240 | two settlements with the same report have the same stock, and the same buildings in some order |
| Market.PriceRange | src/clc/economy/Market.cpp:61-86 | prices lie between 1 and twice the base; above the base exactly in a shortage that is not capped; below it exactly in a surplus that takes a whole coin off a base above 1 |
| Market.PriceMonotone | src/clc/economy/Market.cpp:61-86 | when the base times each side fits 64 bits, the price never falls with demand and never rises with supply, across all regimes |
| Market.PriceMonotoneExactly | src/clc/economy/Market.cpp:61-86 | over all supplies and demands up to n, the price is monotone if and only if base times n fits 64 bits, or the base is 2^63 and n is 2 |
| Market.CalculatedPriceMonotoneExactly | src/clc/economy/Market.cpp:61-86 | the same of the price calculated for a resource, whose base value 0 counts as 1 |
| Market.CalculatedPriceRange | src/clc/economy/Market.cpp:61-86 | the same of the range |
| Market.SaturationBreaksMonotonicity | src/clc/economy/Market.cpp:20-25 | with saturation it can fall as demand rises |
| MarketListing.MarketState.SetDemand | src/clc/economy/Market.cpp:33-47 | sets or, at zero, withdraws a demand; refuses only an empty name |
| MarketTerms.DemandTells | src/clc/economy/Market.cpp:33-60 | after setting a demand, that is what is wanted of the resource, the others stay, and no entry is zero |
| MarketListing.CalculateMarketPrices | src/clc/economy/Market.cpp:88-121 | one row per registered stocked or demanded resource, sorted |
| MarketTerms.ListingTells | src/clc/economy/Market.cpp:61-121 | every row shows the stock, the demand and the base value of its resource, the price these make, and why |
| MarketTerms.PriceIsFixed | src/clc/economy/Market.cpp:66-71 | in a shortage the price is the base plus the one premium, at least 1, that the demand times it fits the base times the gap |
| MarketTerms.DiscountIsFixed | src/clc/economy/Market.cpp:72-77 | in a surplus the price is the base less the one discount so fixed by the supply, and at least 1 |
| MarketTerms.TotalsTell | src/clc/economy/Market.cpp:123-144 | the report's totals are what is in stock, and what is wanted, of the registered resources, capped at 2^64 - 1 |
| Sorting.StrLeTells | src/clc/economy/Market.cpp:116-118 | texts are ordered by the first character in which they differ, and a text comes before its continuations |
| MarketListing.ListingIsUnique | src/clc/economy/Market.cpp:88-121 | the listing does not depend on the order in which hash maps are visited |
| MarketListing.AverageBounds | src/clc/economy/Market.cpp:123-144 | the average is never above the highest price, and not below the lowest if and only if that many lowest prices fit 64 bits |
| MarketListing.AverageBelowLowest | src/clc/economy/Market.cpp:123-144 | two balanced resources of 2^63 each have an average below both their prices |
| MarketListing.MakeMarketReport | src/clc/economy/Market.cpp:123-144 | totals are saturated sums, extremes are attained, the average is the saturated sum over the count and obeys its bounds |
| MarketListing.MarketReportIsUnique | src/clc/economy/Market.cpp:88-144 | goods, stock and demands determine the report |
| Pressure.BasisPointsExactly | src/clc/economy/Market.cpp:190-197 | the ratio is the true share of the gap if and only if the gap can be scaled or a side is empty; otherwise it is overstated |
| Pressure.WideGapIsOverstated | src/clc/economy/Market.cpp:190-197 | a supply and a demand, neither zero and nearly equal, are reported as full pressure |
| Pressure.PressureExtremes | src/clc/economy/Market.cpp:177-197 | no pressure when balanced, full pressure when a side is empty |
| Pressure.MakeSnapshot | src/clc/economy/Market.cpp:221-256 | every signal is that of its price, totals are copied and pressures summed, the level counts partition the prices, and the first resource under the highest pressure is named |
| Pressure.UnfulfilledExactly | src/clc/economy/Market.cpp:199-219 | the resources whose demand cannot be met are those short or depleted |
| EconomyTerms.HighestTells | src/clc/economy/Market.cpp:221-256 | the resource named is the first under the highest pressure, and none if there is no pressure |
| EconomyTerms.SignalTells | src/clc/economy/Market.cpp:177-219 | level, gap, reason and every copied field of a signal, for every price row |
| Aggregate.PooledExactly | src/clc/sim/SimulationEngine.cpp:10-19 | the pooled amount is the true holding if and only if that fits 64 bits, and never more |
| Aggregate.SecondHoardIsLeftOut | src/clc/sim/SimulationEngine.cpp:10-19 | of two hoards of 2^63 the pool shows only the first |
| Aggregate.AggregateStorage | src/clc/sim/SimulationEngine.cpp:10-19 | pools all settlements' stock, whatever order the entries are visited in |
| Ledger.EconomyLedger.Record | src/clc/economy/Ledger.cpp:55-80 | appends a sequenced entry for a successful trade, or changes nothing |
| Ledger.EconomyLedger.RecordContractReward | src/clc/economy/Ledger.cpp:82-110 | appends a sequenced reward entry, or changes nothing |
| Ledger.EconomyLedger.RestoreEntries | src/clc/economy/Ledger.cpp:112-140 | accepts exactly well-formed entries numbered from one, or changes nothing |
| Ledger.EconomyLedger.TotalBought | src/clc/economy/Ledger.cpp:150-158 | the scan is the saturated true sum |
| Ledger.EconomyLedger.TotalSold | src/clc/economy/Ledger.cpp:160-168 | the scan is the saturated true sum |
| Ledger.EconomyLedger.TotalContractRewards | src/clc/economy/Ledger.cpp:170-178 | the scan is the saturated true sum of reward values |
| Ledger.SequencedRestores | src/clc/economy/Ledger.cpp:112-140 | every recorded ledger is accepted by restoring and reproduced exactly |
| Ledger.RestoredIsSequenced | src/clc/economy/Ledger.cpp:112-140 | a restored ledger could have been recorded if and only if it is short of the counter's end |
| EconomyTerms.RecordsExactly | src/clc/economy/Ledger.cpp:55-80 | which trades are recorded, and what the entry then says |
| EconomyTerms.TakesBackExactly | src/clc/economy/Ledger.cpp:112-140 | entries are taken back if and only if they are numbered from one and each is complete for its kind |
| EconomyTerms.SumsTell | src/clc/economy/Ledger.cpp:150-190 | every sum starts at zero and counts an entry under its own kind and resource alone |
| Ledger.MakeLedgerSummary | src/clc/economy/Ledger.cpp:192-249 | the indexed fold gives one row per mentioned resource, equal to the scans, with saturated nets |
| Ledger.TableIsStrict | src/clc/economy/Ledger.cpp:236-248 | the summary rows are strictly ascending |
| Trade.BuyResource | src/clc/economy/Trade.cpp:59-92 | buys exactly when priced, affordable and storable; otherwise nothing changes |
| Trade.SellResource | src/clc/economy/Trade.cpp:94-126 | sells exactly when priced, in stock and the wallet has room; otherwise nothing changes |
| EconomyTerms.BuysExactly | src/clc/economy/Trade.cpp:59-92 | when one can buy: a named resource, a quantity and a price above zero, coins for their product, room in the store |
| EconomyTerms.SellsExactly | src/clc/economy/Trade.cpp:94-126 | when one can sell: the same, with room in the purse and the goods in the store |
| Trade.TradeWithLedger | src/clc/economy/Trade.cpp:27-57 | wallet, storage and ledger change together or not at all |
| Contracts.ValidateContract | src/clc/sim/Contracts.cpp:75-110 | reports no error exactly for complete contracts with consistent due dates |
| Contracts.ContractCatalog.AddContract | src/clc/sim/Contracts.cpp:130-152 | adds a valid, open contract under a new id, giving it its due tick |
| EconomyTerms.ContractErrorsCounted | src/clc/sim/Contracts.cpp:75-110 | every missing part, one party on both sides, and every due date that does not agree is one error |
| EconomyTerms.AddsExactly | src/clc/sim/Contracts.cpp:75-152 | a contract is taken up if and only if it is complete, open, consistently dated and new, and is kept with its due tick |
| Contracts.ContractCatalog.MarkStatus | src/clc/sim/Contracts.cpp:18-42 | only an open contract changes status |
| Contracts.ContractCatalog.FailOverdue | src/clc/sim/Contracts.cpp:342-352 | fails exactly the open contracts past their due tick, and reports them in order, with their number, the day and the tick |
| EconomyTerms.SweepsExactly | src/clc/sim/Contracts.cpp:342-352 | a sweep fails exactly the open contracts whose due tick, or 86400 times whose due day, has passed, and leaves everything else as it is |
| EconomyTerms.ReportsTheSwept | src/clc/sim/Contracts.cpp:342-352 | the ids reported are those of the contracts changed, in catalog order |
| Contracts.ContractCatalog.FulfillFromStorage | src/clc/sim/Contracts.cpp:176-212 | delivers exactly when open and in stock; otherwise nothing changes |
| EconomyTerms.DeliversExactly | src/clc/sim/Contracts.cpp:176-212 | when a delivery succeeds: the first contract of that id is open, asks for something, and the store holds it |
| Contracts.ContractCatalog.FulfillWithReward | src/clc/sim/Contracts.cpp:214-254 | delivery and reward happen together or not at all |
| Contracts.ContractCatalog.FulfillWithRewardAndLedger | src/clc/sim/ContractRewards.cpp:7-39 | delivery, reward and ledger entry happen together or not at all |
| EconomyTerms.SettlesExactly | src/clc/sim/ContractRewards.cpp:7-39 | when a deliverable contract can also be paid and booked, and what the ledger entry says |
| EconomyRuns.Perform | src/clc/economy/Trade.cpp:27-57 | each operation on the objects is the modelled step: trades, deliveries from storages and caravans in all three forms of payment, caravan loading, travel and unloading, and contract bookkeeping |
| EconomyRuns.RunReconciles | src/clc/economy/Ledger.cpp:55-110 | over any run, coins, and every resource's stock over all towns and caravans, reconcile with the ledger's entries and what was delivered off the ledger |
| EconomyRuns.GoodsReconcileExactly | src/clc/sim/Contracts.cpp:176-340 | the ledger accounts for every resource if and only if nothing was delivered off it |
| EconomyRuns.TerminalContractsStay | src/clc/sim/Contracts.cpp:18-42 | over any run, terms never change and a terminal contract keeps its status |
| EconomyRuns.SweepLeavesNoneOverdue | src/clc/sim/Contracts.cpp:342-352 | after a sweep no open contract is overdue |
| EconomyRuns.PaidExactlyOnceExactly | src/clc/sim/ContractRewards.cpp:7-39 | over any run, payouts are for distinct fulfilled contracts on their terms, and correspond one to one if and only if none was marked fulfilled by hand or delivered off the ledger |
| EconomyRuns.TerminalIsNeverPaid | src/clc/sim/ContractRewards.cpp:7-39 | from any world, once a contract is terminal no run pays for it again |
| EconomyRuns.DirectMarkIsNeverPaid | src/clc/sim/Contracts.cpp:360-362 | a contract added to any world and marked fulfilled by hand stays fulfilled and is never among the payouts, whatever follows |
| EconomyRuns.UnledgeredDeliveryIsNeverPaid | src/clc/sim/Contracts.cpp:176-340 | from any world, a contract delivered without a ledger entry stays fulfilled and is never among the payouts, whatever follows |
| EconomyRuns.QuietDeliveryIsNotPaid | src/clc/sim/Contracts.cpp:176-212 | a concrete contract delivered so is fulfilled and unpaid |
| EconomyRuns.RunLedgerRestores | src/clc/economy/Ledger.cpp:112-140 | the ledger of any run can be restored to exactly itself |
| EconomyRuns.RunKeepsProper | src/clc/sim/Storage.cpp:9-69 | over any run every storage and cargo holds only named, positive entries |
| Caravans.ValidateCaravan | src/clc/sim/Caravans.cpp:45-80 | reports no error exactly for complete caravans with consistent tick and day counts |
| EconomyTerms.CaravanErrorsCounted | src/clc/sim/Caravans.cpp:45-80 | every missing name, a way from a place to itself, and every count of ticks or days that does not agree is one error |
| Caravans.CaravanState.AdvanceTicks | src/clc/sim/Caravans.cpp:107-127 | covers the smaller of the time given and the time left, and reports it |
| Caravans.TravelCovers | src/clc/sim/Caravans.cpp:107-127 | over any steps the time covered is the smaller of the sum and the time left, with whole days rounded down |
| Caravans.TravelPartition | src/clc/sim/Caravans.cpp:107-127 | how the journey is cut into steps does not matter |
| Caravans.ArrivalIsAbsorbing | src/clc/sim/Caravans.cpp:103-127 | an arrived caravan stays arrived |
| Caravans.StaysValidExactly | src/clc/sim/Caravans.cpp:45-127 | however a valid caravan has travelled, it is valid if and only if it has not set out, or less than a day is left, or whole days are |
| Caravans.PartDayIsInvalid | src/clc/sim/Caravans.cpp:45-80 | a valid caravan half a day into a two-day journey is not valid |
| Caravans.LoadAtOrigin | src/clc/sim/Caravans.cpp:133-163 | loads exactly under its guards; otherwise nothing changes and the ignored rollback has succeeded |
| Caravans.UnloadAtDestination | src/clc/sim/Caravans.cpp:165-195 | unloads exactly under its guards; otherwise nothing changes and the ignored rollback has succeeded |
| EconomyTerms.LoadsExactly | src/clc/sim/Caravans.cpp:133-163 | goods are loaded only at the origin, with the whole way still to go, as far as the store holds them and the cargo has room |
| EconomyTerms.UnloadsExactly | src/clc/sim/Caravans.cpp:165-195 | goods are unloaded only at the destination, with no tick and no day left, as far as the cargo holds them and the store has room |
| Caravans.DeliveryConserves | src/clc/sim/Caravans.cpp:107-195 | a delivery of any length loads, arrives, can be unloaded, and conserves every resource |
| Planner.FulfillFromArrivedCaravan | src/clc/sim/Contracts.cpp:256-269 | succeeds exactly when arrived and deliverable from the cargo |
| Planner.FulfillFromOwnedArrivedCaravan | src/clc/sim/Contracts.cpp:287-312 | also requires the named faction to own the caravan |
| Planner.RewardFromArrivedCaravan | src/clc/sim/Contracts.cpp:271-285 | the same with a reward into a wallet that has room, all or nothing |
| Planner.RewardFromOwnedArrivedCaravan | src/clc/sim/Contracts.cpp:314-340 | the same for a caravan the named faction owns |
| Planner.SettleFromArrivedCaravan | src/clc/sim/ContractRewards.cpp:41-56 | the same with reward and ledger, all or nothing |
| Planner.SettleFromOwnedArrivedCaravan | src/clc/sim/ContractRewards.cpp:58-85 | the same for a caravan the named faction owns |
| Planner.StoragePlanPredictsExactly | src/clc/sim/EconomyDepth.cpp:126-155 | plan and executor agree except exactly for open contracts without id or quantity that the stock covers |
| Planner.EmptyContractIsMisplanned | src/clc/sim/EconomyDepth.cpp:126-155 | a contract for nothing is planned and then refused |
| Planner.CaravanPlanPredicts | src/clc/sim/EconomyDepth.cpp:157-204 | for added contracts the caravan plan says yes if and only if the matching fulfilment succeeds |
| Planner.OwnedPlanAgreesExactly | src/clc/sim/EconomyDepth.cpp:157-204 | over every faction a caller may name, plan and owned fulfilment agree if and only if a faction is named or the contract is not open, the caravan not arrived or its cargo too small |
| Planner.NobodysCaravanIsMisplanned | src/clc/sim/EconomyDepth.cpp:174-180 | an arrived, loaded caravan planned for nobody is refused |
| Planner.PlanShowsShortfall | src/clc/sim/EconomyDepth.cpp:126-155 | bringing in more makes delivery possible exactly when it covers the shortfall shown |
| EconomyTerms.StoragePlanTells | src/clc/sim/EconomyDepth.cpp:126-155 | what a plan from a storage shows for the first contract of the id, or for none |
| EconomyTerms.CaravanPlanTells | src/clc/sim/EconomyDepth.cpp:157-204 | the same from a caravan, with when it is ready and whose it must be |
| Planner.PlanThenDeliver | src/clc/sim/EconomyDepth.cpp:126-155 | acting right after planning succeeds if and only if the plan said so |
| Engine.SimulationEngine.AddSettlement | src/clc/sim/SimulationEngine.cpp:233-249 | accepts a settlement exactly under a new, non-empty id |
| Engine.SimulationEngine.CreateSettlementCommand | src/clc/sim/SimulationEngine.cpp:391-397 | founds a defined settlement or changes nothing, and logs either way |
| Engine.SimulationEngine.AddBuildingCommand | src/clc/sim/SimulationEngine.cpp:399-406 | adds a building or changes nothing, and logs either way |
| Engine.SimulationEngine.AddResourceCommand | src/clc/sim/SimulationEngine.cpp:408-415 | stocks a registered resource or changes nothing, and logs either way |
| Engine.SimulationEngine.RemoveResourceCommand | src/clc/sim/SimulationEngine.cpp:417-424 | removes all or nothing, and logs either way |
| Engine.SimulationEngine.TransferResourceCommand | src/clc/sim/SimulationEngine.cpp:426-444 | moves goods between two settlements or changes nothing, and logs either way |
| EngineTerms.CommandIsLogged | src/clc/sim/SimulationEngine.cpp:74-444 | whatever comes of a command, one event is logged on the current day, named after the command and its outcome; a refused one changes no settlement |
| EngineTerms.FoundsExactly | src/clc/sim/SimulationEngine.cpp:233-265 | when a settlement is founded, and that it starts with its definition's name and people and nothing else |
| EngineTerms.BuildsExactly | src/clc/sim/SimulationEngine.cpp:267-283 | when a building is added, and that the first settlement of that name gets it and nothing else changes |
| EngineTerms.AddsExactly | src/clc/sim/SimulationEngine.cpp:284-312 | when goods are added, and that nothing but that amount at that settlement changes |
| EngineTerms.RemovesExactly | src/clc/sim/SimulationEngine.cpp:314-342 | when goods are removed, and that nothing but that amount at that settlement changes |
| EngineTerms.TransfersExactly | src/clc/sim/SimulationEngine.cpp:344-389 | when goods are transferred, and that nothing but that amount at the two settlements changes |
| Engine.SimulationEngine.AdvanceDay | src/clc/sim/SimulationEngine.cpp:590-617 | ticks every settlement by a day, wraps the day counter, logs start, each settlement and end, and reports ticks, settlements, market on pooled stock, events and warnings |
| EngineTerms.DayIsLogged | src/clc/sim/SimulationEngine.cpp:590-617 | a day is counted modulo 2^64, logs its start, each settlement by name and its end, and gives every settlement 86400 ticks |
| Engine.SimulationEngine.RunDays | src/clc/sim/SimulationEngine.cpp:619-626 | runs that many days, each reported as that day; the log grows by the reports' events |
| Engine.SimulationEngine.Snapshot | src/clc/sim/SimulationEngine.cpp:580-588 | shows day, settlements, market and events, and changes nothing |
| Engine.SimulationEngine.ExportState | src/clc/sim/SimulationEngine.cpp:497-510 | copies the state; demands come out once each, in any order |
| Engine.SimulationEngine.RestoreState | src/clc/sim/SimulationEngine.cpp:512-578 | replaces the whole state exactly when the saved one is acceptable; otherwise changes nothing |
| EngineTerms.RestoresExactly | src/clc/sim/SimulationEngine.cpp:512-578 | any saved state is taken over whole if and only if its settlements are named apart and hold known resources and its demands are for different known ones; otherwise nothing changes |
| EngineRuns.Perform | src/clc/sim/SimulationEngine.cpp:391-617 | each operation on the engine object is the modelled step |
| EngineRuns.RunKeepsSound | src/clc/sim/SimulationEngine.cpp:251-617 | over any run, loads included, ids stay unique and non-empty, stock positive and registered, demands positive |
| EngineRuns.ExportRestoresExactly | src/clc/sim/SimulationEngine.cpp:497-578 | an export is accepted if and only if every demanded resource is registered, and then restores the engine exactly |
| EngineRuns.ReachableEnginesRestore | src/clc/sim/SimulationEngine.cpp:497-578 | every engine reachable with registered demands is restored exactly by its export, into any engine |
| EngineRuns.UnregisteredDemandBlocksRestore | src/clc/sim/SimulationEngine.cpp:539-551 | one demand for an unregistered name makes the export unacceptable |
| EngineSnapshots.SnapshotTellsExactly | src/clc/sim/SimulationEngine.cpp:580-588 | a snapshot of one sound engine is a snapshot of another if and only if they differ at most in building order, carried fractions and unregistered demands |
| EngineSnapshots.SavedEngineIsRecognized | src/clc/sim/SimulationPersistence.cpp:152-361 | the printed snapshot of a sound engine reads back whole, and what is read tells it from every sound engine that is not alike |
| EngineSnapshots.SaveThenLoad | src/clc/sim/SimulationPersistence.cpp:152-361 | saving and loading a sound engine's snapshot gives no error, no warning, and a snapshot of that engine |
| EngineFlows.CommandConserves | src/clc/sim/SimulationEngine.cpp:251-389 | a command changes the world's holdings of each resource by exactly what it delivers; transfers by nothing |
| EngineFlows.RunConserves | src/clc/sim/SimulationEngine.cpp:251-617 | over any run without loads, from any state, the world's stock changes by what was delivered, less what was removed, plus production, less consumption |
| EngineFlows.DayBalances | src/clc/sim/SimulationEngine.cpp:590-617 | of each resource, a day changes what the world holds by what is made, less what is used and eaten |
| EngineFlows.RunBalances | src/clc/sim/SimulationEngine.cpp:251-617 | over any run without loads, the same account holds of every single resource |
| EngineFlows.DaysSplit | src/clc/sim/SimulationEngine.cpp:619-626 | running days in two goes is running them in one |
| EngineFlows.SettlementsTickAlone | src/clc/sim/SimulationEngine.cpp:600-608 | each settlement lives its days as if it were alone |
| EngineFlows.RunKeepsLockstep | src/clc/sim/SimulationEngine.cpp:590-617 | over any run whose loads are themselves in lockstep, every definition's input and output carries stay equal |
| EngineFlows.ExportsAreInLockstep | src/clc/sim/SimulationEngine.cpp:497-510 | what such runs export may be loaded in further such runs |
| EngineFlows.EveryBuildingEarnsWhatItNeeds | src/clc/sim/Settlement.cpp:142-173 | after any such run, every building needs of each input exactly what it makes of each output |
| Dispatch.ValidateAction | src/clc/sim/ActionBridge.cpp:364-417 | counts the complaints exactly; there is none exactly for supported actions with their required fields |
| Dispatch.DispatchAction | src/clc/sim/ActionBridge.cpp:419-471 | an invalid action leaves no trace; a valid one runs its command or its days; the outcome repeats action and command, counts the diagnostics and carries the events gained |
| Dispatch.ValidateEnvelope | src/clc/sim/ServerAuthoritative.cpp:55-69 | counts errors and warnings exactly; no error exactly for numbered, addressed, identified envelopes of valid actions |
| Dispatch.Serve | src/clc/sim/ServerAuthoritative.cpp:71-114 | dispatches valid envelopes and audits every one, with event and diagnostic counts |
| Dispatch.DaysEmit | src/clc/sim/SimulationEngine.cpp:590-626 | n days append n times two events plus one per settlement, and keep what was logged before |
| Dispatch.DaysPass | src/clc/sim/SimulationEngine.cpp:590-626 | n days advance the day by n modulo 2^64 and leave the demands alone |
| Dispatch.ServedEventCount | src/clc/sim/ServerAuthoritative.cpp:92-107 | the audited event count, for every kind of envelope |
| ActionRequests.ParseActionJson | src/clc/sim/ActionBridge.cpp:327-362 | reads an action and its payload from a text, and counts what is missing |
| ActionRequests.RequestParses | src/clc/sim/ActionBridge.cpp:327-362 | the request written for an action parses to exactly that action, whatever characters its fields hold |
| ActionTerms.ParsesExactly | src/clc/sim/ActionBridge.cpp:327-362 | any text is a request if and only if, between blanks, it is enclosed in braces, has an action id and a type, and any payload is an object; from where each field of the action is read; and that the engine carries out just these |
| ActionRequests.DispatchJson | src/clc/sim/ActionBridge.cpp:473-480 | a text that does not parse leaves no trace; any other is dispatched as its action |
| ActionRequests.RequestIsCarriedOut | src/clc/sim/ActionBridge.cpp:473-480 | sending an action as text does to the engine exactly what the action does |
| ActionRequests.ReplyTells | src/clc/sim/ActionBridge.cpp:299-323 | the printed reply reads back which action it answers, whether it was well formed, whether the engine carried it out, and how many events that left |
| ActionRequests.ReplyTellsCommand | src/clc/sim/ActionBridge.cpp:299-323 | and the command run, if any, with its settlements, resource and amount |
| ActionTerms.ReplyAnswers | src/clc/sim/ActionBridge.cpp:251-323 | the words a reply answers with for every status, error and reason, and the events it lists |
| Authority.HasSystemPermission | src/clc/sim/ActionAuthority.cpp:209-231 | permitted exactly when the first rule for the action admits one of the actor's roles |
| Authority.DefaultPermissions | src/clc/sim/ActionAuthority.cpp:115-134 | who may do what under the default rules, for every actor and every action name |
| Authority.GrantIsRequiredExactly | src/clc/sim/ActionAuthority.cpp:209-231 | a rule asking for an explicit grant gets one if and only if the actor has a list, or is let in as host, or belongs to no class the rule admits |
| Authority.UnlistedActorMayBuild | src/clc/sim/ActionAuthority.cpp:29-31 | a valid faction actor listing nothing may build |
| Authority.ValidateActor | src/clc/sim/ActionAuthority.cpp:136-173 | reports no error exactly for complete actors |
| Authority.ValidatePolicy | src/clc/sim/ActionAuthority.cpp:188-195 | reports no error exactly for a positive age limit and named rules |
| Authority.Review.Reject | src/clc/sim/ActionAuthority.cpp:39-45 | the first reason stays |
| Authority.ReviewAction | src/clc/sim/ActionAuthority.cpp:255-345 | the reason given is that of the first failing check, there is none exactly when authorized, and every objection is counted |
| Authority.AuthorizedMeansNoReason | src/clc/sim/ActionAuthority.cpp:255-345 | no reason is given if and only if every condition for the action holds |
| Authority.ObjectionsExactly | src/clc/sim/ActionAuthority.cpp:255-345 | a well-formed action draws no objection if and only if it is authorized |
| AuthorityTerms.LogVerdicts | src/clc/sim/ActionAuthority.cpp:255-372 | in any log, every entry is turned away for the first of the conditions on its own fields that fails, with that one's reason, and then nothing happens; one that meets them all is served |
| AuthorityTerms.AcceptedMeans | src/clc/sim/ActionAuthority.cpp:284-334 | in any log, an accepted entry came no later than its age limit and not from the future, in its sender's name where asked, from one who may advance time or use the resource, on owned ground where asked |
| AuthorityTerms.ComplaintsCounted | src/clc/sim/ActionAuthority.cpp:136-195 | how many errors and warnings a request, an actor and a policy draw: one for each missing part, empty id or nameless rule, and one for each rule that admits nobody |
| AuthorityTerms.MessagesCounted | src/clc/sim/ActionAuthority.cpp:255-345 | a complete request draws one objection for each condition it does not meet, and an incomplete one is not looked into any further |
| AuthorityTerms.AuditTells | src/clc/sim/ServerAuthoritative.cpp:71-114 | every audit repeats its request and tells the day the engine was left on and how many events it gained |
| Sequences.Summarize | src/clc/sim/ServerAuthoritative.cpp:116-152 | counts, ends and both flags of an audit list |
| Sequences.ValidateSequence | src/clc/sim/ServerAuthoritative.cpp:154-177 | no error if and only if the numbers count up from the expected one |
| Sequences.ConsecutiveExactly | src/clc/sim/ServerAuthoritative.cpp:116-177 | counting up from the first number is the same as first matching, contiguous and increasing together |
| Sequences.ContiguousIncreasesExactly | src/clc/sim/ServerAuthoritative.cpp:116-152 | contiguous numbers increase if and only if they end before the counter does |
| Sequences.WrapIsContiguousButNotIncreasing | src/clc/sim/ServerAuthoritative.cpp:140-148 | the largest number followed by zero is contiguous and does not increase |
| Replay.SimulationRuntime.DispatchAuthorized | src/clc/sim/ActionAuthority.cpp:347-372 | only admitted entries reach the engine; every entry is audited |
| Replay.SimulationRuntime.Replay | src/clc/sim/MultiplayerReplay.cpp:65-86 | replays every entry in turn, leaves clock, caravans, cargoes, owners, contracts, wallet and ledger as they were, and summarizes the audits, first and last number included |
| Replay.ValidateLog | src/clc/sim/MultiplayerReplay.cpp:31-63 | no error if and only if the numbers count up from the expected one and every envelope is valid |
| Replay.TrailNumbers | src/clc/sim/MultiplayerReplay.cpp:71-83 | the audits carry the log's own numbers |
| Replay.ReplaySplits | src/clc/sim/MultiplayerReplay.cpp:65-86 | replaying a + b is replaying a and then b, engine and audits alike |
| Replay.ErasingRejectedEntries | src/clc/sim/MultiplayerReplay.cpp:65-86 | erasing any entries the gate turned away changes neither the final engine nor any other audit |
| ReplaySafety.ReplayKeepsSound | src/clc/sim/MultiplayerReplay.cpp:65-86 | no log can make a sound engine unsound |
| ReplaySafety.AdmittedSucceedsExactly | src/clc/sim/ActionAuthority.cpp:314-342 | an admitted action is accepted by the engine exactly when its goods are registered and fit, and it does not transfer to itself |
| ReplaySafety.StrangersTakeNothing | src/clc/sim/ActionAuthority.cpp:329-334 | over any log without days, a settlement no actor owns or overrides never loses anything |
| ReplaySafety.TransferDelivers | src/clc/sim/SimulationEngine.cpp:344-389 | an accepted transfer takes exactly the amount from its source and adds it at its target |
| ReplaySafety.OnlySourceOwnershipCounts | src/clc/sim/ActionAuthority.cpp:314-342 | of ownership, the gate asks only who owns the settlement an action starts from |
| ReplaySafety.StrangersMayGive | src/clc/sim/ActionAuthority.cpp:329-334 | a transfer is judged just as if its sender owned the destination, and an accepted one arrives in full |
| ReplaySafety.AGiftIsAdmitted | src/clc/sim/ActionAuthority.cpp:314-342 | a concrete transfer to a settlement of somebody else is admitted and arrives |

## Left out

- Engine.SimulationEngine.RunDays: assumes the list of reports can be allocated.
- Engine.SimulationEngine.AdvanceDay: of the warnings, the day report holds only how many there are.
- Dispatch.DispatchAction: statuses and error codes are tags, turned into their texts where replies are printed.
- Paths and texts of diagnostics: a validation report is its number of errors or warnings, and printed replies are proved for every text.
- Characters: strings are sequences of code units, and nothing depends on an encoding.
- Unspecified orders: sorting promises only what every result of the standard sort has, and hash maps are visited in an arbitrary order.
- The world-state save format, runtime ticks, workflows and event logs, and the comparison of whole world states.
- Files, directories, the foreign-function interfaces and command-line tools.
- Scenario runs and their summaries, digests, text tables, readiness reports, manifests and scenario presets: flat counting and formatting.
- Factions, routes, logistics and settlement development: lookups and sums; only ownership lookups are used here.
- Contract lifecycle summaries, portfolio assessments and caravan fleets: sums and filters over the modelled records.
