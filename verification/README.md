# Verified model of the inventory and booking core

This project models the parts of the inventory and booking system where a mistake would be silent: the
replay that tells a customer what the sales desk changed, the stock ledger with its balances,
reversals and imports, stock counts, upcoming shipments, order stock under concurrency, the
permission matrix and its seed, prices, week arithmetic, the product merge, alerts and booking edits.

`dafny verify dfyconfig.toml` checks everything. Every induction is written out in the lemma that
needs it; lemmas switch automatic induction off.

Where the source updates something step by step, the model does too: classes with fields, methods
with loops, each proved against a function of the old state; the lemmas then state what that function
promises. Protocols whose callers interleave, crash or retry are state machines over atomic steps, and
their theorems quantify over every sequence of steps.

| file | what it models |
|---|---|
| `BookingReplay.dfy`, `BookingHistory.dfy` | the audit replay and the true history it should recover |
| `DeskTrails.dfy` | the trails the order desk's controller writes, and what the report makes of them |
| `OpenIndents.dfy` | open indent balances, batched and single |
| `ModuleRegistry.dfy`, `RoleSeed.dfy` | permissions and matrix cells; the seed of default roles |
| `JsText.dfy`, `Pricing.dfy` | JavaScript text facts; reading and printing prices |
| `IsoWeek.dfy` | the `--week` argument of the report script |
| `OrderStock.dfy` | `POST /orders` in interleaved transactions |
| `Projection.dfy`, `ProjectionRuns.dfy` | ledger movements reduced to balances; posters and rebuilds side by side |
| `Posting.dfy`, `StandalonePosting.dfy` | the checks of a posting, and posting in a transaction; posting without one |
| `Reversals.dfy` | reversal by contra-entry |
| `ImportChunks.dfy`, `ImportRun.dfy` | staging in chunks; processing with crashes and takeovers |
| `StockCount.dfy`, `CountRuns.dfy` | one count sheet; all count sessions together |
| `Upcoming.dfy`, `UpcomingRuns.dfy` | receipts filling shipment lines; their life |
| `Migration.dfy` | the merge of the product collections and its parity check |
| `Alerts.dfy` | alert deduplication and lifecycle |
| `BookingFields.dfy` | editing booking details and the PO lock |
| `Sums.dfy` | options, sums, distinctness |

## Where the code and what is said about it differ

The model follows the code. These are stated as lemmas, most as an exact condition.

- The order desk records only the confirmed part of a line it removes or re-codes. When that is the first
  entry about the line and units were on indent, the report is off by them until the customer sets the
  quantity: exactly then for surviving lines (`DeskTrails.SurvivorTrueExactlyWhen`), removed lines
  (`DeskTrails.RemovalTrueExactlyWhen`) and the total (`DeskTrails.TotalTrueExactlyWhen`);
  `DeskTrails.IndentedRecodeMisreports` is an input.
- The replay knows lines by their codes. A desk may swap the codes of two lines in one save, or use the code of
  a line it removed; the report is then wrong (`BookingHistory.SwapReportedExactlyWhen`,
  `BookingHistory.SwapMisreports`, `BookingHistory.ReusedCodeMisleads`; exact condition of every edit in
  `BookingHistory.StepReported`).
- The replay never deletes what it stored under a code a customer has left, and does not carry it along:
  a customer's re-code of a line the desk added loses the `added` mark, and a re-code back to a code of the
  line's own is reported with the origin the desk once gave that code (`BookingHistory.StepReported`,
  `BookingHistory.StaleCodeMisreports`). No trail of this program gets there:
  `backend/modules/sales/sales.controller.js:476-504` refuses customers anything but quantities.
- `BO-x` and `SO-x` share an indent number, and the last of a batch takes all rows
  (`OpenIndents.BatchAgreesWithSingle`).
- A matrix that compiles to the wildcard derives back to every cell (`ModuleRegistry.PermissionsAreStable`).
- The seed resets the super-admin flag of a system role (`RoleSeed.SuperAdminFlagReset`).
- "A blank is null, never 0.00" fails below half a paisa (`Pricing.PrintsFreeExactlyWhen`).
- A price typed with `Rs` or `INR` is accepted by the strict reader and is no number to the lenient one
  (`Pricing.LenientReadsTheSameExactlyWhen`).
- A `--week` with a year below 100 runs a week of the twentieth century (`IsoWeek.EarlyYearIsNineteenHundred`).
- A quantity that arrives as text is appended to `bookedQuantity`, not added (`OrderStock.NoOversell`).
- `validateLine` returns lines without their brand and reversal link, so a SKU under two brands can never
  be posted and `reversalOf` is never stored, which `backend/scripts/verify-ledger.js:246` expects
  (`Posting.SharedSkuNeverPosts`, `Posting.PreparedIsSound`).
- A rebuild that overlaps a posting counts it twice or loses it (`ProjectionRuns.CountedTwice`,
  `ProjectionRuns.AppliedThenOverwritten`; exact condition `ProjectionRuns.InStepExactlyWhen`), and a rebuild
  as of a date overwrites the live balances (`ProjectionRuns.DatedRebuildExactlyWhen`).
- Two balances whose SKU, brand and location spell the same key would be folded into one
  (`Projection.AppliesExactlyWhen`, `Keys.Text3Collides`). No balance of this program gets there: brand names
  (`backend/utils/brandRegistry.js:49-61`) and location ids hold no colon, and then the key gives its parts
  back for every SKU (`Keys.Text3Injective`, `ProjectionRuns.PlainInStepExactlyWhen`).
- Without transactions, a posting that fails or stops half way is replayed to every later caller, and one
  that stops before the promotion is whole but never called posted (`StandalonePosting.LeftBehindExactly`).
- A reversal under a used key stamps the original with nothing to take it back
  (`Reversals.ReusedKeyStampsOnly`); one whose process stops after its claim, which the service calls
  repairable, is never repaired by it (`Reversals.AbandonedForever`).
- A posting whose process stops before the balances are applied is replayed, never applied: so an import's
  balances may not follow the ledger (`ImportRun.BalanceFollowsLedger`), and a posted count may leave the
  stored balance where it was (`CountRuns.StopLeavesBalance`, `CountRuns.PostedAsDelta`).
- A row one attempt refused can be reported as processed by the next without ever being posted
  (`ImportRun.PostedExactlyWhen`, `ImportRun.ProcessedButNotPosted`); a sheet that only brings stock in is
  safe (`ImportRun.ReportedIsPosted`). The idempotency key ends in `-qty` or `-fresh`;
  `backend/scripts/verify-import.js:115` looks for one that does not.
- Of two brands of one SKU on a count sheet, only the later line can be counted
  (`StockCount.CountedExactlyWhen`), and a variance on a SKU under two brands keeps an approved count from
  ever being posted (`StockCount.SharedSkuBlocksPosting`).
- The guard on posted counts never fires, a late save can still overwrite a posted session, and lines of
  a session whose process stopped before releasing them stay locked for good (`CountRuns.EveryRun`,
  `CountRuns.PostedCanBeCancelled`, `CountRuns.StrandedForever`).
- Reordering receipts can change what lines receive (`Upcoming.SwappingExactlyWhen`).
- A merge that the unique index refuses in one place still writes the rest, and the same merge may go
  further the next time (`Migration.AdmittedExactlyWhen`, `Migration.RetryGoesFurther`).
- A late acknowledgement leaves an alert acknowledged but not active (`Alerts.LiveStaysActiveExactlyWhen`);
  a raise whose delivery fails reports failure though its alert is there (`Alerts.FailedRaiseCounts`).
- The PO number `-` unlocks a booking (`BookingFields.UnlocksExactlyWhen`), and a field that is right on a
  booking's first row only is not written to the others (`BookingFields.EveryRowCarriesItExactlyWhen`).

## Model

| member | source | states |
|---|---|---|
| BookingReplay.CustomerChange | backend/utils/bookingJourney.js:202-211 | writes at most the code the customer changed, with the wanted quantity, keeping its first code and its added mark; every other code and all removals stay |
| BookingReplay.DeskChange | backend/utils/bookingJourney.js:213-236 | an addition marks its code and clears its removal; a removal is filed once under the first code with the last baseline, and never for an added line; a re-code carries the first code along; a quantity edit keeps what is known; all other codes stay |
| BookingReplay.ReplayLog | backend/utils/bookingJourney.js:200-238 | the inner loop replays one entry's changes in order after everything before it |
| BookingReplay.ReplayLogs | backend/utils/bookingJourney.js:193-239 | the outer loop is the replay of all entries, oldest first |
| BookingReplay.ReportLines | backend/utils/bookingJourney.js:245-295 | surviving lines come first, then each removal whose code no row carries |
| BookingReplay.BuildChangeSummary | backend/utils/bookingJourney.js:184-306 | the report is the replay's lines; each total is its column added up; `changed` iff some line is not unchanged |
| BookingReplay.UneditedLine | backend/utils/bookingJourney.js:258-267 | a line no edit has touched shows no change, unless it was never booked and holds stock: then all of it is an addition |
| BookingReplay.RemovalShownExactlyWhen | backend/utils/bookingJourney.js:287-295 | a removal is shown iff no surviving row carries its code |
| BookingHistory.EditHolds | backend/modules/sales/sales.controller.js:476-720 | an edit changes one line, which then holds the quantity and carries the code it names; what a customer names is what is asked for from then on |
| BookingHistory.EntrySays | backend/modules/sales/sales.controller.js:476-720 | its entry records what happened, to which code, and the quantities before and after |
| BookingHistory.StepTracks | backend/utils/bookingJourney.js:200-238 | a truthful edit keeps replay and true history in step iff it takes no code a surviving or removed line still needs and is no customer edit under a code where another origin is stored |
| BookingHistory.StepReported | backend/utils/bookingJourney.js:200-295 | after a truthful edit the report is true, of surviving and removed lines, iff no removed line is filed under the code taken, no surviving line that can be told apart carries it, and no customer edit inherits another origin |
| BookingHistory.FirstEntryMustBeTruthful | backend/utils/bookingJourney.js:219-236 | a first desk entry keeps the replay right iff its recorded quantity is the line's own and the code it takes is free |
| BookingHistory.DeskEntriesTruthful | backend/modules/sales/sales.controller.js:550-715 | what the desk records on a first removal or re-code is right iff nothing of the line is on indent and the code is free; on a quantity edit always |
| BookingHistory.ReplayTracks | backend/utils/bookingJourney.js:193-239 | the replay of any truthful trail of edits it can follow knows every line of the booking it came from |
| BookingHistory.LineReported | backend/utils/bookingJourney.js:245-284 | a tracked line is reported with its change, its kind (added, re-coded, reduced below, increased above or equal to what was asked for), its first code and total, and its row's code, confirmed and open units |
| BookingHistory.ReportRefinesHistory | backend/utils/bookingJourney.js:184-286 | for every such trail the report states the true history of every surviving line, through re-codes, additions and customer resets |
| BookingHistory.TrailChangedExactlyWhen | backend/utils/bookingJourney.js:242-305 | on those trails the report is marked changed iff a surviving line was added, re-coded or holds other than was asked for, or an offer was dropped |
| BookingHistory.AllRemovalsReported | backend/utils/bookingJourney.js:287-295 | every removal is reported as taken away in full, nothing booked, with what its code still has on indent |
| BookingHistory.FormTrailsAreTrue | backend/utils/bookingJourney.js:193-284 | customers changing quantities only, no needed code taken, and entries that record the line's whole quantity: every surviving line is reported truly |
| BookingHistory.StaleCodeMisreports | backend/utils/bookingJourney.js:202-211 | desk W to X, customer X to Y and back to X: the line is X by the customer's wish and reported as recoded from W |
| BookingHistory.TotalChangeOf | backend/utils/bookingJourney.js:288-304 | `totalChange` is what the booking holds less what the customer last asked for, removed lines included |
| BookingHistory.ChangeConserved | backend/utils/bookingJourney.js:242-305 | desk-only trails: `totalChange` is units held now less units booked |
| BookingHistory.CodesReportedOnce | backend/utils/bookingJourney.js:287-295 | no code is reported twice, so none is both surviving and removed |
| BookingHistory.ArrivalIsNoChange | backend/utils/bookingJourney.js:247-284 | moving units from indent to confirmed changes no total ever, and no change, type or first code iff the line was edited, had a booked quantity, or does not start or stop holding stock |
| BookingHistory.ReusedCodeMisleads | backend/utils/bookingJourney.js:213-216 | one input of the condition in StepReported: a code dropped and added again is reported as a pure addition |
| BookingHistory.SwapReportedExactlyWhen | backend/utils/bookingJourney.js:226-231 | two lines given each other's codes in one save, from any known state: the second is reported truly iff the two cannot be told apart, the first as never edited |
| BookingHistory.SwapMisreports | backend/utils/bookingJourney.js:226-231 | A with 10 and B with 20 swapped, quantities kept: one reported as 10 more, the other as unchanged |
| DeskTrails.BelievedIsTracked | backend/modules/sales/sales.controller.js:550-715 | every run: the controller's trail is a truthful trail of a history with the same lines, which the replay knows |
| DeskTrails.SurvivorTrueExactlyWhen | backend/modules/sales/sales.controller.js:550-715 | every run: a surviving line is reported truly iff the first edit to touch it was no desk re-code that found units on indent, or the customer set its quantity since; the report overstates by those units |
| DeskTrails.RemovalTrueExactlyWhen | backend/modules/sales/sales.controller.js:550-563 | every run: a line the desk took away is reported once, with what was asked for iff the same holds of removals and re-codes |
| DeskTrails.MisstatedIs | backend/utils/bookingJourney.js:219-236 | what the trail leaves out of a line is nothing iff no first entry was short, or the customer has reset it |
| DeskTrails.TotalChangeWritten | backend/utils/bookingJourney.js:288-304 | every run: `totalChange` is units held less units asked for, plus what the entries left out |
| DeskTrails.DeskOnlyTotal | backend/utils/bookingJourney.js:288-304 | with desk edits only: units held now less units booked, plus what the entries left out |
| DeskTrails.TotalTrueExactlyWhen | backend/utils/bookingJourney.js:288-304 | and it is right iff no line is misstated, given that no line is confirmed beyond what it holds |
| DeskTrails.NewQuantityIgnored | backend/utils/bookingJourney.js:212-237 | the replay of a desk entry does not look at the new quantity it records |
| DeskTrails.IndentedRecodeMisreports | backend/modules/sales/sales.controller.js:700-716 | A with 5 confirmed and 10 on indent, re-coded to B with 15: reported as 10 more |
| OpenIndents.IndentIdsShared | backend/utils/bookingJourney.js:36 | two prefixed ids share an indent number iff their numbers agree; under one prefix only equal ids do |
| OpenIndents.BookingByIndent | backend/utils/bookingJourney.js:70-72 | the map built from ids gives each indent number to the last id that has it |
| OpenIndents.OpenIndentsByOrder | backend/utils/bookingJourney.js:65-89 | every id that holds its number gets the exact sums of its open reservations per SKU, any other an empty map |
| OpenIndents.OpenIndentBySku | backend/utils/bookingJourney.js:116-117 | the single lookup is the exact balance of the booking's indent number |
| OpenIndents.BatchAgreesWithSingle | backend/utils/bookingJourney.js:65-117 | batch and single lookup agree for an id iff it is the last with its number or nothing is open there |
| OpenIndents.BatchIsExact | backend/utils/bookingJourney.js:65-89 | with distinct indent numbers every id gets its own balance |
| OpenIndents.EachRowCountsOnce | backend/utils/bookingJourney.js:82-87 | with distinct numbers the per-id open totals add up to the open rows asked about |
| OpenIndents.GrandTotal | backend/utils/bookingJourney.js:65-89 | with distinct numbers the batch's grand total is the sum of the matching open reservations |
| ModuleRegistry.BuildIndex | backend/config/moduleRegistry.js:986-995 | the index built by two loops finds exactly the registry's sub-modules |
| ModuleRegistry.CellIdInjective | backend/config/moduleRegistry.js:986-993 | dot-free module and sub-module keys can be read back from the joined id |
| ModuleRegistry.CompileGrants | backend/config/moduleRegistry.js:1026-1043 | the compiled set is exactly the keys of the grants' registered cells |
| ModuleRegistry.GrantsFromPermissions | backend/config/moduleRegistry.js:1054-1072 | the derived matrix, in registry order, for any list of keys, wildcard included |
| ModuleRegistry.CellLit | backend/config/moduleRegistry.js:1054-1072 | a cell is in the derived matrix iff it is registered and all its keys are held |
| ModuleRegistry.Adjunction | backend/config/moduleRegistry.js:1012-1072 | without the wildcard, grants compile into P iff each of their registered cells is in the matrix of P |
| ModuleRegistry.RoundTripNeverOverGrants | backend/config/moduleRegistry.js:1045-1072 | permissions to matrix to permissions never adds a key |
| ModuleRegistry.MatrixIsStable | backend/config/moduleRegistry.js:1026-1072 | deriving again from what a derived matrix compiles to gives the same matrix |
| ModuleRegistry.PermissionsAreStable | backend/config/moduleRegistry.js:1026-1072 | matrix to permissions and back keeps the permissions iff the wildcard is not among them or everything is |
| ModuleRegistry.ValidateGrants | backend/config/moduleRegistry.js:1089-1132 | refuses at the first problem, accepts exactly the acceptable lists, returns them normalised |
| ModuleRegistry.AcceptedExactlyWhen | backend/config/moduleRegistry.js:1089-1132 | a list is accepted iff every grant names a registered sub-module that offers all its actions and that no earlier grant names, whatever their order and repetition |
| ModuleRegistry.CleanIsNormal | backend/config/moduleRegistry.js:1089-1132 | an accepted list has one entry per sub-module, ordered duplicate-free offered actions, no empty entry |
| ModuleRegistry.NormalIsFixed | backend/config/moduleRegistry.js:1089-1132 | a list in normal form is accepted and returned unchanged |
| ModuleRegistry.CleanGrantsTheSame | backend/config/moduleRegistry.js:1089-1132 | normalising changes no compiled key |
| ModuleRegistry.SavedMatrix | backend/config/moduleRegistry.js:1089-1132 | what a save stores is normal, grants the same, and would be saved unchanged |
| ModuleRegistry.DerivedIsNormal | backend/config/moduleRegistry.js:1054-1072 | a derived matrix is in normal form |
| ModuleRegistry.DerivedMatrixSavesUnchanged | backend/config/moduleRegistry.js:1054-1132 | a derived matrix is always accepted unchanged |
| RoleSeed.RoleStore.SeedSystemRole | backend/config/seedRoles.js:98-158 | a system role is created from its baseline or patched where it falls short |
| RoleSeed.RoleStore.SeedLegacyRole | backend/config/seedRoles.js:160-178 | a legacy role that exists is patched, one that does not is not created |
| RoleSeed.RoleStore.SeedDefaultRoles | backend/config/seedRoles.js:94-181 | both loops together are the seed function of the old collection |
| RoleSeed.SeedAt | backend/config/seedRoles.js:98-181 | what the seed leaves under a name depends on that name's role alone |
| RoleSeed.SeedIsIdempotent | backend/config/seedRoles.js:98-181 | running the seed twice is running it once, whatever the collection held |
| RoleSeed.ExistingRoleKept | backend/config/seedRoles.js:98-181 | no role is dropped, no filled matrix altered, no flat or compiled key lost; without the wildcard at most the baseline is gained |
| RoleSeed.SystemRolesPresent | backend/config/seedRoles.js:98-158 | every system role exists afterwards with the flag its baseline says, and a new one holds no more than its baseline |
| RoleSeed.SystemRoleBecomes | backend/config/seedRoles.js:98-158 | a new system role, or one without a matrix, shows exactly the cells its baseline and flat keys earn; every other field is filled in, kept or reset as the tables say |
| RoleSeed.LegacyRoleBecomes | backend/config/seedRoles.js:160-178 | a legacy role without a matrix shows exactly the cells its flat keys earn; nothing else of it changes but blanks |
| RoleSeed.SuperAdminFlagReset | backend/config/seedRoles.js:98-158 | the flag survives the seed iff it already matched the baseline |
| RoleSeed.OtherRolesUntouched | backend/config/seedRoles.js:94-181 | roles the seed does not name are left alone and none is invented |
| RoleSeed.MoreKeysMoreGrants | backend/config/moduleRegistry.js:1054-1072 | fewer permissions never derive a matrix where more derived none |
| Pricing.AcceptsIsMatches | backend/config/pricing.js:117-119 | cutting at commas and the dot decides exactly the three grouping grammars |
| Pricing.LastGroupIsThreeDigits | backend/config/pricing.js:114-147 | a text with a comma is refused unless the last group before the fraction is three digits |
| Pricing.RenderingReads | backend/config/pricing.js:117-147 | every plain, Western or Indian writing of an amount is in the grammar and denotes the amount |
| Pricing.RenderingParses | backend/config/pricing.js:131-147 | every such writing up to the maximum, with or without the rupee sign, reads back as the amount |
| Pricing.CurrencyDropped | backend/config/pricing.js:131-139 | however the currency is named, it is dropped and the amount is left |
| Pricing.PrintThenParse | backend/config/pricing.js:131-171 | what `formatRupees` prints, `parsePriceInput` reads back, from one paisa to the maximum |
| Pricing.RangeExactlyWhen | backend/config/pricing.js:131-147 | a number is taken as the nearest paise from one paisa to the maximum, refused below half a paisa and from half a paisa above the maximum |
| Pricing.TextIsItsNumber | backend/config/pricing.js:131-147 | a text in the grammar is taken as the number it denotes, any other is no amount |
| Pricing.PrintsFreeExactlyWhen | backend/config/pricing.js:98-109 | a price prints as a blank iff it is not positive, and as 0.00 iff it is positive and below half a paisa |
| Pricing.LenientReadsTheSameExactlyWhen | backend/config/pricing.js:104-109 | of all the strict reader takes, the lenient one hands on as the same digits exactly what does not spell the currency out; the rest is no number to it |
| Pricing.LenientMisreads | backend/config/pricing.js:104-147 | digits, a comma and a part of any length but three: refused by the strict reader, one whole number to the lenient |
| IsoWeek.YearLength | backend/scripts/send-inventory-report.js:140-146 | the day count of the calendar steps by every year's length under the full leap rule |
| IsoWeek.IsoWeekUnique | backend/scripts/send-inventory-report.js:132-147 | a day has one ISO year and week |
| IsoWeek.MomentFor | backend/scripts/send-inventory-report.js:134-147 | the moment computed from the argument, or none when it is not a week |
| IsoWeek.LandsInTheWeek | backend/scripts/send-inventory-report.js:139-147 | the date is a Thursday, and has the asked ISO week iff year >= 100 and the week exists; then it lies in the calendar year |
| IsoWeek.EarlyYearIsNineteenHundred | backend/scripts/send-inventory-report.js:139-147 | a year below 100 is taken for one of the twentieth century |
| IsoWeek.EveryWeekIsReached | backend/scripts/send-inventory-report.js:139-147 | every day's week is asked for by some argument, which gives that week's Thursday |
| IsoWeek.LabelParses | backend/scripts/send-inventory-report.js:135-139 | a printed week label is read back |
| IsoWeek.WeekReadExactlyWhen | backend/scripts/send-inventory-report.js:134-138 | an argument is a week iff it is four digits, -W, and one or two digits |
| IsoWeek.AskedWeekIsRun | backend/scripts/send-inventory-report.js:130-147 | asking for the label of any day's week runs inside that week |
| OrderStock.Catalogue.PlaceOrder | backend/routes/api.routes.js:117-198 | one order alone: created iff acceptable, stock and orders change together or not at all, and the stock stays what the orders leave one after another |
| OrderStock.AddedOvershoots | backend/routes/api.routes.js:146-148 | adding a quantity that came as text to the booked figure overshoots, and is right iff nothing was booked |
| OrderStock.AddedBelowZero | backend/routes/api.routes.js:146-148 | below zero the text is appended behind the sign |
| OrderStock.AvailableIsExact | backend/routes/api.routes.js:134-148 | availableForSale falls by the units ordered and never below zero |
| OrderStock.BookedIsExact | backend/routes/api.routes.js:146-148 | bookedQuantity rises by the units ordered iff no textual order met units already booked |
| OrderStock.InterleavingIsSerial | backend/routes/api.routes.js:112-198 | every interleaving leaves the stock its committed orders would leave one after another, each finding enough |
| OrderStock.NoOversell | backend/routes/api.routes.js:112-198 | every interleaving: never below zero, stock falls by the committed orders, and available plus booked is constant iff no textual order met units already booked |
| OrderStock.AloneGoesThrough | backend/routes/api.routes.js:112-198 | with nobody else at work on its product an order of at least one unit and no more than is available commits, any other changes nothing |
| OrderStock.AbortedLeavesNothing | backend/routes/api.routes.js:193-197 | an aborted order leaves no trace |
| OrderStock.WithoutConflictsOversells | backend/routes/api.routes.js:103-111 | without the write-conflict abort two orders commit on one decrement |
| Keys.Text3Injective | backend/modules/inventory/balance.service.js:45 | brand and location free of colons, the joined key gives its parts back for every SKU |
| Keys.Text3Collides | backend/modules/inventory/balance.service.js:45 | with a colon in a brand it would not |
| Projection.GroupingAgrees | backend/modules/inventory/balance.service.js:177-209 | the rebuild's aggregation of a movement is the reducer's iff no dated allocation has a physical type, which posted movements never are |
| Projection.ClassesStayApart | backend/modules/inventory/balance.service.js:70-74 | on hand is the sum of physical movements, reserved of allocations, and neither crosses |
| Projection.MarkersAreLatest | backend/modules/inventory/balance.service.js:78-90 | each activity marker is the latest date of the movements that drive it |
| Projection.CountIsExact | backend/modules/inventory/balance.service.js:76 | the movement count is how many movements there are |
| Projection.OrderDoesNotMatter | backend/modules/inventory/balance.service.js:25-27 | movements in any order reduce to the same balance |
| Projection.ReduceMovements | backend/modules/inventory/balance.service.js:41-94 | the loop gives a line for exactly the keys met, under the first balance that spelled the key, holding the sums and markers of all that do; any SKU and brand |
| Projection.BalanceStore.ApplyMovements | backend/modules/inventory/balance.service.js:110-153 | every balance is combined with what the batch's lines say of it, missing ones created, others untouched |
| Projection.AppliesExactlyWhen | backend/modules/inventory/balance.service.js:29-94 | a batch adds to a balance its own replay iff it does not touch it or nothing else in the batch spells its key |
| Projection.PlainKeysApart | backend/utils/brandRegistry.js:49-61 | which brands and locations without colons guarantee, whatever the SKUs |
| Projection.AggregateLedger | backend/modules/inventory/balance.service.js:177-209 | the aggregation, with or without a date, holds exactly the balances in scope that some counted movement touches, each the replay of those movements |
| Projection.BalanceStore.FindOrphans | backend/modules/inventory/balance.service.js:227-252 | the comparison by text keys never names more than the balances with no movement behind them, and all of them when no two share a key |
| Projection.BalanceStore.Rebuild | backend/modules/inventory/balance.service.js:169-321 | an uninterrupted rebuild is aggregation, orphans and write together; a dry run changes nothing |
| Projection.BalanceStore.WriteRebuilt | backend/modules/inventory/balance.service.js:262-300 | the two bulk writes set what was aggregated, zero the quantities of orphans, keep all else |
| Projection.PostingKeeps | backend/modules/inventory/balance.service.js:96-109 | folding a batch in keeps balance and replay equal iff the batch does not touch the balance or nothing else in it spells its key; skipping it, iff it does not touch it |
| ProjectionRuns.WriteKeepsExactlyWhen | backend/modules/inventory/balance.service.js:169-321 | a rebuild's write keeps a balance in step iff it does not write it, or what it counted ahead of posters makes up for what was applied since it aggregated |
| ProjectionRuns.OneRaceShows | backend/modules/inventory/balance.service.js:169-321 | a race of one kind alone keeps it in step iff it does not touch it |
| ProjectionRuns.StepKeepsExactlyWhen | backend/modules/inventory/balance.service.js:96-321 | any step of posters and rebuilds keeps a balance in step iff it is no lost posting, no shared key and no such write |
| ProjectionRuns.InStepExactlyWhen | backend/modules/inventory/balance.service.js:96-321 | every run, from any state in step: a balance is in step throughout iff no step disturbs it |
| ProjectionRuns.PlainInStepExactlyWhen | backend/modules/inventory/balance.service.js:96-321 | with this program's brands and locations: a balance is in step throughout iff no poster stops with it in hand and no rebuild races with its postings |
| ProjectionRuns.IncrementalIsReplay | backend/scripts/verify-balance.js:94-174 | at the end of an undisturbed run with nothing in hand, a balance's figures are those of the ledger replayed in any order |
| ProjectionRuns.CountedTwice | backend/modules/inventory/balance.service.js:169-321 | recorded, rebuilt, applied: the batch counts twice |
| ProjectionRuns.AppliedThenOverwritten | backend/modules/inventory/balance.service.js:178-300 | aggregated, another batch applied, written: that batch is gone from the balance |
| ProjectionRuns.RebuildHeals | backend/modules/inventory/balance.service.js:155-321 | whatever was stored, an uninterrupted rebuild sets the quantities to the ledger's, and the count too unless nothing stands behind the balance and its quantities were zero |
| ProjectionRuns.HealedInStepExactlyWhen | backend/modules/inventory/balance.service.js:155-321 | it leaves a balance in step with the posters iff nothing of it is in anybody's hand |
| ProjectionRuns.RebuildLeavesRest | backend/modules/inventory/balance.service.js:169-321 | balances neither aggregated nor orphaned, and so all out of scope, are left |
| ProjectionRuns.StoppedWritesNothing | backend/modules/inventory/balance.service.js:169-321 | a rebuild that stops before it writes has changed nothing and never will |
| ProjectionRuns.DatedRebuildExactlyWhen | backend/modules/inventory/balance.service.js:169-321 | a rebuild as of a date keeps a balance in step iff none of its movements is later or it is not written |
| ProjectionRuns.CalmRunIsReplay | backend/modules/inventory/balance.service.js:96-321 | where no rebuild races at all, the whole balance, activity markers included, is the replay of the ledger in any order |
| Projection.ReservingKeepsStock | backend/models/StockBalance.js:93-108 | an allocation lowers what is available by its quantity and moves nothing on hand |
| Posting.AcceptedExactlyWhen | backend/modules/inventory/ledger.service.js:75-152 | a line is accepted iff it names a type it may name, and is sound: sign, class and before/after pair |
| Posting.UnnamedExactlyWhen | backend/modules/inventory/ledger.service.js:75-101 | a line is refused for its type iff it names none it may name |
| Posting.RefusedExactlyWhen | backend/modules/inventory/ledger.service.js:75-152 | a line that names a type is refused for the first thing wrong with it: quantity, SKU, figures, their sum, class |
| Posting.ResolvedExactlyWhen | backend/modules/inventory/ledger.service.js:298-335 | a checked line resolves iff its SKU has one brand and its location, else the default one, is known and active; each other case is refused for what it is |
| Posting.DateRefusedExactlyWhen | backend/modules/inventory/ledger.service.js:272-292 | a date is refused iff it is none or more than a minute ahead, and otherwise taken as it is |
| Posting.CheckedIsFixed | backend/modules/inventory/ledger.service.js:75-172 | a checked line checks to itself |
| Posting.EachIs | backend/modules/inventory/ledger.service.js:272-335 | a phase passes iff every line does, and otherwise reports a fault some line has |
| Posting.PreparedIsSound | backend/modules/inventory/ledger.service.js:272-398 | everything posted is sound, dated at most a minute ahead, a reversal only where allowed, and never carries `reversalOf` |
| Posting.PreparedExactlyWhen | backend/modules/inventory/ledger.service.js:272-398 | a posting passes iff its date is taken and every line can enter the ledger as itself: the type, quantity, figures, SKU, location and link it names, the one brand of its SKU, and its own date, else the batch's, else now |
| Posting.BrandIsIgnored | backend/modules/inventory/ledger.service.js:154-172 | a line's brand and link make no difference to what is checked |
| Posting.SharedSkuNeverPosts | backend/modules/inventory/ledger.service.js:298-318 | a posting with a SKU under several brands is always refused |
| Posting.InvalidDateNeverPosts | backend/modules/inventory/ledger.service.js:274-292 | a posting with a date that is none, its own or a line's, is always refused |
| Posting.StockLedger.PostBatch | backend/modules/inventory/ledger.service.js:239-471 | a batch enters whole under a new key, is replayed under a used one, is refused with the first fault of the first phase that has one; otherwise nothing changes |
| StandalonePosting.EveryRun | backend/modules/inventory/ledger.service.js:347-452 | without transactions, every run: one batch and one writer per key, the ledger holds the first lines of each batch once each, a posted batch is whole |
| StandalonePosting.AlonePosts | backend/modules/inventory/ledger.service.js:347-452 | under an unused key, nobody in between: the batch is posted with all its movements, in order |
| StandalonePosting.LoserReplays | backend/modules/inventory/ledger.service.js:430-438 | of two posters that found a key unused, the second to open its batch is turned into a replay |
| StandalonePosting.FailureIsMarked | backend/modules/inventory/ledger.service.js:439-446 | a writer that fails marks its batch failed |
| StandalonePosting.LeftBehindExactly | backend/models/StockBatch.js:14-17 | a poster that fails or stops after n movements leaves exactly those n for good; the posting is whole iff none was missing, is never called posted, and every later call is a replay |
| Reversals.EveryRunIsPaired | backend/modules/inventory/ledger.service.js:480-557 | every run: a reversal opposes an earlier non-reversal of its class, nothing is taken back twice, pairs on file add up |
| Reversals.ContraIs | backend/modules/inventory/ledger.service.js:509-531 | the contra-entry has the opposite quantity and the class, and lands on the same balance iff the catalogue still files it there |
| Reversals.LedgerIsWhatStands | backend/scripts/verify-ledger.js:235-261 | the sum over the ledger is the sum over movements neither reversals nor taken back |
| Reversals.ReversalCancels | backend/modules/inventory/ledger.service.js:473-557 | every run: each balance is the sum of what stands; with fresh keys and nothing pending, of the movements whose `reversedBy` is null |
| Reversals.RefusalRestores | backend/modules/inventory/ledger.service.js:532-541 | a reversal that is refused leaves everything as it was before its claim |
| Reversals.AloneTakesBack | backend/modules/inventory/ledger.service.js:480-557 | a reversal left alone, under a new key and with the place still in use, appends the opposite movement there and stamps the original with it |
| Reversals.PostEntersExactlyWhen | backend/modules/inventory/ledger.service.js:239-471 | beside reversals, a posting enters whole under a new key when the ledger takes it, and otherwise changes nothing |
| Reversals.StoppingAbandons | backend/modules/inventory/ledger.service.js:490-507 | a caller that stops between claim and posting leaves the placeholder behind |
| Reversals.AbandonedForever | backend/modules/inventory/ledger.service.js:484-507 | and no later call ever frees it or reverses the movement |
| Reversals.ReusedKeyStampsOnly | backend/modules/inventory/ledger.service.js:500-557 | a completed reversal takes effect iff its key is new; otherwise the original is stamped only |
| ImportChunks.Stage | backend/modules/inventory/import.service.js:672-731 | the staging loop numbers valid rows in chunks of 500 and counts the chunks |
| ImportChunks.ChunkCountsRows | backend/modules/inventory/import.service.js:672-731 | a row is in the chunk that holds as many full five hundreds of valid rows before it |
| ImportChunks.ChunkFits | backend/modules/inventory/import.service.js:685-725 | rows of one chunk stand within its size of each other |
| ImportChunks.WholeChunkTakenUp | backend/modules/inventory/import.service.js:1845-1859 | one pass takes up exactly the rows still pending in the first unfinished chunk |
| ImportRun.EachRowOnce | backend/modules/inventory/import.service.js:1819-1959 | every run: each row enters the ledger at most once |
| ImportRun.PostedExactlyWhen | backend/modules/inventory/import.service.js:1127-1241 | every run: a row is in the ledger iff its chunk was posted by an attempt that held it, and on the figures read it moves stock: a fresh figure other than the shelf's and not below what is reserved; a master quantity that adds, or takes from a place not both new and empty and leaves at least nothing and what is reserved |
| ImportRun.JudgedExactlyWhen | backend/modules/inventory/import.service.js:1151-1356 | each row's judgement, movement type and before and after figures, from the sheet and the figures read |
| ImportRun.AttemptReportsExactlyWhen | backend/modules/inventory/import.service.js:1861-1910 | an uninterrupted attempt reports every row it holds: a master row as processed iff its master data was written, a fresh row iff it asks for nothing new, or moves stock and the ledger took or had the chunk; any other as failed |
| ImportRun.AloneFinishesChunk | backend/modules/inventory/import.service.js:1819-1919 | a processor left alone takes up the first unfinished chunk; with its lines taken they are all in ledger and balances, every row of the chunk is reported, and no other row is touched |
| ImportRun.MarkedInParts | backend/modules/inventory/import.service.js:1887-1904 | rows marked before an interruption come out as if all had been marked at once |
| ImportRun.RetryStartsOver | backend/modules/inventory/import.service.js:1868-1885 | a retried attempt starts over with the same rows; what it had posted and not folded stays unfolded |
| ImportRun.LinesFollowTheSheet | backend/modules/inventory/import.service.js:1151-1356 | every run: a posted line is the row's quantity, or its figure less what was on hand; no posted row goes below nothing or below what is reserved |
| ImportRun.LedgerTakesExactlyWhen | backend/modules/inventory/import.service.js:1203-1241 | the ledger's checks take the lines of an attempt iff the catalogue files each row unambiguously, and post them with their type, quantity, before and after figures |
| ImportRun.LeftOutForGood | backend/modules/inventory/import.service.js:1127-1241 | a row not in its chunk's posting never enters the ledger |
| ImportRun.ReportedAnyway | backend/modules/inventory/import.service.js:1861-1905 | yet a later attempt reports a landed row of a used chunk processed and posts nothing |
| ImportRun.ProcessedButNotPosted | backend/modules/inventory/import.service.js:1819-1959 | and a run gets there: refused once, crashed after posting, taken over, accepted, reported, never posted |
| ImportRun.BalanceFollowsLedger | backend/modules/inventory/import.service.js:1222-1241 | every run: balances moved by the ledger less what was not folded in; by the ledger once nobody is at work and nothing was dropped |
| ImportRun.ExactlyOnce | backend/scripts/verify-import.js:410-468 | a master sheet without negative quantities, filed by the catalogue: a drained run holds exactly the file's rows, and balances moved by exactly their net unless a poster was lost before folding |
| ImportRun.ReportedIsPosted | backend/modules/inventory/import.service.js:1861-1905 | and every row that moves stock and was reported, at any time, is in the ledger |
| ImportRun.ClaimsAreApart | backend/models/ImportJob.js:207-218 | two claims are more than the stale window apart; an unconfirmed or cancelled import moved nothing |
| ImportRun.JobMovesExactlyWhen | backend/modules/inventory/import.service.js:1768-1990 | what confirms, cancels, finishes and stops a job, when a claim is granted, and what each does to the lock |
| ImportRun.UnconfirmedMovesNothing | backend/modules/inventory/import.service.js:1768-1800 | in every run without a confirmation the job is validated or cancelled, no stock has moved and no row is reported |
| ImportRun.EndedStaysEnded | backend/models/ImportJob.js:50-66 | an ended job with nobody at work stays as it is |
| ImportRun.ZombieStops | backend/modules/inventory/import.service.js:1948-1958 | a processor that was taken over can still stop a finished job |
| StockCount.PostedWasReviewed | backend/models/StockCount.js:32-40 | a path of legal moves to Posted ends Counting, Submitted, Approved, Posted |
| StockCount.NoWayBack | backend/models/StockCount.js:32-40 | no session is a draft again, and a posted or cancelled one allows no move |
| StockCount.Session.Start | backend/modules/inventory/count.service.js:191-205 | starts iff the table allows it and records who counts |
| StockCount.Session.RecordCounts | backend/modules/inventory/count.service.js:212-288 | all entries written or none; written iff counting and every entry names a line, counts whole units, and explains a difference with an active code; figures, labels, reasons and roll-up stay consistent |
| StockCount.LastEntryStands | backend/modules/inventory/count.service.js:229-284 | a line ends up with its last entry's count, label and, for a variance only, reason, and unchanged without one or once posted |
| StockCount.CountedExactlyWhen | backend/modules/inventory/count.service.js:229-241 | an uncounted line is counted iff an entry names its SKU and no later line has the same SKU |
| StockCount.Session.Submit | backend/modules/inventory/count.service.js:326-400 | submits iff allowed and every line is counted or skipping is allowed; uncounted lines are skipped, moved ones flagged with the live balance, nothing else changes |
| StockCount.Session.Review | backend/modules/inventory/count.service.js:412-455 | approves iff submitted and the actor neither started nor submitted; rejects iff a reason is given |
| StockCount.Session.Post | backend/modules/inventory/count.service.js:473-653 | posts iff allowed and the ledger takes the variances; stamps and releases every line; the adjustment has as many lines as the reviewed roll-up counted variances and its net |
| StockCount.AdjustmentIsRollup | backend/modules/inventory/count.service.js:291-311 | the unposted variances number and add up to the roll-up's figures |
| StockCount.RollupSays | backend/modules/inventory/count.service.js:291-311 | the roll-up says how many lines there are, are counted and differ, and their differences added up |
| StockCount.VariancePasses | backend/modules/inventory/count.service.js:504-522 | every variance passes the ledger's line check as counted less expected, with matching before and after |
| StockCount.VarianceLandsExactlyWhen | backend/modules/inventory/count.service.js:504-522 | and lands on the balance that was counted iff the catalogue files the SKU there |
| StockCount.SharedSkuBlocksPosting | backend/modules/inventory/count.service.js:494-522 | a variance on a SKU under several brands makes every posting of its session refused |
| StockCount.Session.Cancel | backend/modules/inventory/count.service.js:731-747 | cancels iff allowed with a reason, and releases every line |
| CountRuns.EveryRun | backend/modules/inventory/count.service.js:465-535 | every run: a variance is posted at most once per balance, no balance is in two open counts, the posted guard never fires, a batch is in hand, applied or dropped |
| CountRuns.CreatedExactlyWhen | backend/modules/inventory/count.service.js:75-185 | a new count freezes its balances as they are, or is cancelled at once iff another count holds one of them |
| CountRuns.AlonePosts | backend/modules/inventory/count.service.js:473-653 | a worker that posts an approved session on its own moves ledger and balances by each unposted variance once, stamps those lines, closes the session, releases every lock |
| CountRuns.AloneRecords | backend/modules/inventory/count.service.js:212-287 | recording writes the one line it is about |
| CountRuns.AloneSaves | backend/modules/inventory/count.service.js:191-747 | an allowed status change takes effect, and a cancellation releases the lines |
| CountRuns.OthersMove | backend/models/StockCountLine.js:10-23 | other postings move the ledger and other changes the stored balance, each by its quantity and no other balance |
| CountRuns.PostedAsDelta | backend/models/StockCountLine.js:10-23 | operations not overlapping: a posted session was reviewed, and a counted balance holds the count plus what else changed it since the freeze iff there was no difference or the worker that posted the variance applied it |
| CountRuns.LedgerAsDelta | backend/modules/inventory/count.service.js:494-522 | the ledger sum is the count plus what else was posted since, applied or not, iff balance and ledger agreed at the freeze |
| CountRuns.StopLeavesBalance | backend/modules/inventory/count.service.js:526-535 | a worker stops between posting and applying, the next one replays: posted, stamped, and the stored balance unmoved |
| CountRuns.DroppedForever | backend/modules/inventory/count.service.js:532-535 | a dropped variance is never applied, whatever is tried later |
| CountRuns.StaleSaveGoesThrough | backend/models/StockCount.js:109-135 | a save takes effect iff the session was not loaded as Posted, whatever it overwrites |
| CountRuns.PostedCanBeCancelled | backend/models/StockCount.js:118-135 | a late cancellation overwrites a posted session |
| CountRuns.StopStrands | backend/modules/inventory/count.service.js:602-612 | a process that stops after saving leaves the lines locked; one that goes on releases them |
| CountRuns.StrandedForever | backend/models/StockCountLine.js:75-94 | lines left locked by a finished session stay so in every run, and block every later count |
| Upcoming.BeforeIsTotal | backend/models/UpcomingShipment.js:104-109 | `byEta` orders any two lines one way |
| Upcoming.StatusExactlyWhen | backend/models/UpcomingShipment.js:111-120 | a line is deleted, cancelled, received, partially received or open exactly as its marks and quantities say |
| Upcoming.OneArrangement | backend/modules/inventory/upcomingStock.service.js:116-123 | sorting the lines has one result |
| Upcoming.ApplyReceipt | backend/modules/inventory/upcomingStock.service.js:125-149 | the loop fills in place what the lines before leave, applies the lesser of quantity and room, and records the allocations |
| Upcoming.EarlierLinesAreFull | backend/models/UpcomingShipment.js:7-15 | a line gets units only when every eligible earlier one is full |
| Upcoming.FillLowers | backend/models/UpcomingShipment.js:111-112 | outstanding falls by what the line takes and never rises |
| Upcoming.SplitReceipt | backend/modules/inventory/upcomingStock.service.js:129-149 | filling q then r is filling q + r |
| Upcoming.OnlyTheTotalMatters | backend/modules/inventory/upcomingStock.service.js:129-149 | over lines on record throughout, any receipts do what one receipt of their total does |
| Upcoming.ReorderingChangesNothing | backend/modules/inventory/upcomingStock.service.js:129-149 | so any order and split of the same total does the same |
| Upcoming.SwappingExactlyWhen | backend/modules/inventory/upcomingStock.service.js:134-135 | two receipts commute for all quantities iff no open line recorded between them stands behind one recorded before them |
| UpcomingRuns.ArrivalsConserved | backend/models/UpcomingArrival.js:6-38 | every run: a movement counts once, arrivals are allocated exactly, lines received exactly their allocations, statuses fit |
| UpcomingRuns.EarliestDueFirst | backend/models/UpcomingShipment.js:102-109 | a line gets units only when every waiting line expected earlier, dated before undated, or of the same expectation and on record earlier, is full |
| UpcomingRuns.OnlyWaitingLinesReceive | backend/modules/inventory/upcomingStock.service.js:129-149 | only lines that are open and were on record when the stock arrived receive, and only what they received and their status change |
| UpcomingRuns.NothingHeldBack | backend/modules/inventory/upcomingStock.service.js:125-149 | when part of a movement goes nowhere, no waiting line is left short |
| UpcomingRuns.RecordedIsExpected | backend/modules/inventory/upcomingStock.service.js:706-733 | a new line is expected in full and nothing has come of it |
| UpcomingRuns.EditedExactlyWhen | backend/modules/inventory/upcomingStock.service.js:778-872 | an edit goes through iff the line waits and the new quantity is at least one and no less than has come; then quantity and date are those |
| UpcomingRuns.ClosedExactlyWhen | backend/modules/inventory/upcomingStock.service.js:874-947 | closing a line that waits keeps what has come and expects no more |
| UpcomingRuns.CountedOnce | backend/modules/inventory/upcomingStock.service.js:110-114 | looking at a counted movement again changes nothing |
| Migration.FindDuplicates | backend/scripts/migrate-unify-products.js:190-198 | reports none iff no two rows share brand and normalised SKU |
| Migration.NoDuplicateKeys | backend/scripts/migrate-unify-products.js:190-198 | past the check no two rows share brand and SKU up to case and blanks |
| Migration.Migrate | backend/scripts/migrate-unify-products.js:187-292 | writes what the unique index admits, or everything where the index could not be built, iff the check passes and it is not a dry run; fails iff something was refused |
| Migration.AdmittedExactlyWhen | backend/models/Product.js:150 | no upsert is refused iff every row under a source row's key is that row or a copy of a source row written before it |
| Migration.MigratesAll | backend/scripts/migrate-unify-products.js:223-263 | with every upsert admitted, old rows keep their places, merged or untouched; new ones stand behind |
| Migration.MigrationCarries | backend/scripts/migrate-unify-products.js:52-243 | with every upsert admitted, each source row is there under its id with its brand, code and every field it had; a missing unit becomes PCS and a missing description nothing, and all else is as an earlier copy had it |
| Migration.Verify | backend/scripts/migrate-unify-products.js:103-184 | confirms parity iff every source row is found under its key with its values and id |
| Migration.ParityExactlyWhen | backend/scripts/migrate-unify-products.js:103-263 | parity after migrating iff no upsert is refused and no earlier copy holds a compared field the source lacks |
| Migration.UpsertsIntactExactlyWhen | backend/scripts/migrate-unify-products.js:103-292 | where the index could not be built and every upsert goes through: parity iff no foreign row stands ahead under a source row's key and no earlier copy holds a compared field the source lacks |
| Migration.FreshTargetHasParity | backend/scripts/migrate-unify-products.js:103-263 | with no id and no key shared beforehand nothing is refused and parity always holds |
| Migration.UnrelatedUntouched | backend/scripts/migrate-unify-products.js:229-243 | rows of nobody's are untouched, however many upserts are refused |
| Migration.MigratingTwice | backend/scripts/migrate-unify-products.js:229-263 | after a migration without refusals a second one goes through and changes nothing |
| Migration.RetryGoesFurther | backend/scripts/migrate-unify-products.js:229-263 | after one with a refusal a second one may succeed |
| Alerts.AlertBook.Raise | backend/modules/inventory/alert.service.js:71-150 | does nothing under a disabled rule, else touches the live alert or raises one, which stays though its delivery fails; counts the key once |
| Alerts.AlertBook.Clear | backend/modules/inventory/alert.service.js:160-182 | resolves the live alert and frees its key |
| Alerts.AlertBook.Transition | backend/modules/inventory/alert.service.js:624-655 | moves iff the table allows it; resolving and closing free the key |
| Alerts.OnlyForward | backend/models/InventoryAlert.js:60-65 | an alert moves over any later stage and never back |
| Alerts.AlertsDeduplicated | backend/models/InventoryAlert.js:82-117 | every run: one active alert per key, active only while open or acknowledged; occurrences are the raises that reported, those that created and then failed, those still delivering, and the sweeps' counting writes |
| Alerts.FailedRaiseCounts | backend/modules/inventory/alert.service.js:137-149 | a raise whose delivery fails has counted without reporting |
| Alerts.RaiseAloneReports | backend/modules/inventory/alert.service.js:71-150 | a raise nobody interferes with reports: a touch of the live alert, or a new one that is open |
| Alerts.LostRaceTouches | backend/modules/inventory/alert.service.js:123-135 | one that lost the race to create touches the alert of the one that won |
| Alerts.SweepInARunExactlyWhen | backend/modules/inventory/alert.service.js:474-602 | every run: a sweep's write leaves its key live as observed iff no live key was released under a planned touch and no unplanned one was raised or left to its own raise; it counts an occurrence iff what is observed changed under a live alert, or the alert is new; other keys are not affected |
| Alerts.LiveStaysActiveExactlyWhen | backend/modules/inventory/alert.service.js:624-655 | open or acknowledged stays active iff the step is no late acknowledgement of a released alert |
| Alerts.LateAcknowledgement | backend/modules/inventory/alert.service.js:624-655 | which happens when the condition clears between load and save |
| BookingFields.CoercedIsClean | backend/utils/bookingFields.js:160-206 | whatever is accepted is clean: trimmed, within its length, a valid GSTIN or address, never an empty PO number |
| BookingFields.AcceptedExactlyWhen | backend/utils/bookingFields.js:160-206 | a value is accepted iff its tidied form is clean, and the tidied form is what is stored |
| BookingFields.RefusedExactlyWhen | backend/utils/bookingFields.js:160-206 | a value that is refused is refused for what is wrong with it first |
| BookingFields.CleanIsFixed | backend/utils/bookingFields.js:160-206 | the clean values are exactly those stored as they are |
| BookingFields.Booking.UpdateDetails | backend/modules/sales/bookingEdit.service.js:160-252 | the edit is the function of the rows, patch and taken numbers; refused edits change nothing |
| BookingFields.EditedExactlyWhen | backend/modules/sales/bookingEdit.service.js:160-252 | a form goes through iff it submits something, only editable fields with acceptable values, for a booking that is there, and no PO number of another booking that is new to this one |
| BookingFields.FormRefusedExactlyWhen | backend/modules/sales/bookingEdit.service.js:160-252 | a form that is refused is refused for the first thing wrong with it: nothing submitted, an unknown field, no booking, the first value that is not acceptable, a PO number that is taken |
| BookingFields.PromiseInBothColumns | backend/modules/sales/bookingEdit.service.js:186-246 | the promise date is written to both its columns, and nothing else writes the second |
| BookingFields.UnlocksExactlyWhen | backend/utils/bookingLock.js:32-45 | an edit unlocks a locked booking iff no row is stamped and it writes `-`, and then no other booking holds `-` |
| BookingFields.NoRunUnlocks | backend/utils/bookingLock.js:32-66 | no run of edits unlocks a stamped booking, nor any locked one while another booking holds `-` |
| BookingFields.EveryRowCarriesItExactlyWhen | backend/modules/sales/bookingEdit.service.js:186-246 | all rows carry a submitted value afterwards iff the first row lacked it or all had it already |
| BookingFields.SavingTwice | backend/modules/sales/bookingEdit.service.js:160-252 | saving the same form again changes nothing |

## Left out

- IEEE floating point: amounts and quantities are integers or exact reals; fractional order quantities, `NaN`, infinities and exponents are not modelled.
- Locale code behind `toLocaleString`: Indian grouping is specified directly.
- Unicode case mapping: `toUpperCase` is modelled on ASCII letters.
- Mongoose casting, projections and discriminators; a source row or product without a SKU code.
- DeskTrails.SurvivorTrueExactlyWhen: totals that change outside the audit trail (a cancelled indent), quantities set below what is on indent after the PO was raised, and an open indent left under a code the line has been re-coded from are not edits here; a never edited row's `pendingQty` is its open indent, as arrivals keep it.
- OrderStock.Catalogue.PlaceOrder: modelled on the transactional path; postings without transactions are in StandalonePosting.dfy.
- OrderStock.NoOversell: other writers of the two stock fields (bookings, reservations) are not steps of the run; text that is not plain digits is not modelled.
- Projection.BalanceStore.ApplyMovements: `incoming` and `outgoing`, which no movement moves, are not modelled.
- Projection.AggregateLedger: the dry run's report is not modelled; movements in the ledger carry the class of their type, which Posting.PreparedIsSound proves of every posting.
- Posting.StockLedger.PostBatch: notes, reasons, unit costs and transaction numbers carry no rule and are not modelled.
- ImportRun.ExactlyOnce: the progress counters and the split of finished into Completed and Partial are not modelled; that the catalogue files the rows is asked of every posting of the run, because it may change meanwhile.
- ImportRun.EachRowOnce: only imports that post quantities under a chunk key; master-data writes, box numbers and the other import types are not modelled.
- StockCount.Session.RecordCounts: notes, times and who counted are not modelled.
- CountRuns.PostedAsDelta: holds for operations on one session that do not overlap; overlapping ones are the subject of StaleSaveGoesThrough and PostedCanBeCancelled. Creating a session is one step, a posting the ledger refuses is a worker that stops, and a variance lands on the counted balance (condition in StockCount.VarianceLandsExactlyWhen).
- Upcoming.ApplyReceipt: ids are numbers where the source compares their text; the look-back window only decides which movements are offered again.
- Alerts.SweepInARunExactlyWhen: which conditions hold is what the sweep observed; wording, delivery channels and cooldowns are not modelled.
- ImportRun.BalanceFollowsLedger: applying a batch to the balances is one step; the bulk write is unordered, and a process that stops half way through it is not modelled. The same holds of CountRuns.PostedAsDelta, and of both bulk writes of a rebuild.
- ProjectionRuns.InStepExactlyWhen: a poster or rebuild that stops half way through its bulk write is not modelled; Apply and Write are one step each.
- RoleSeed.SeedIsIdempotent: slug collisions and the logged counters are not modelled.
- Migration.Verify: `Number` of a text is modelled on plain digits; any other text counts as zero beside a number.
- Pricing.LenientReadsTheSameExactlyWhen: stops at the text handed to `Number`.
- The save hooks that refuse changed identity and trigger fields of import jobs and alerts: no step here changes one.
- The registry's client view, role routes, health formulas, pricing quotes, report rendering, mail, sockets, scheduling and authentication.
- Dashboard trend buckets, which mix database and server time zones.
- The literal registry and role baselines: any registry with unique dot-free keys is covered.
