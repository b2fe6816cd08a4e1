# Verified model of the marketplace backend

The backend trades sweet-potato produce between farmers and buyers: places, users and farmer groups, stock in
aggregation centers, orders with two-party payment, farm pickups, sourcing requests, and refresh tokens. This
project models the services that keep real state, as Dafny programs, and proves what they keep over every run.

Every service is modelled twice. A pure `...Step` function says what one call does to the tables and what it
answers, with the branches, the order of the checks and the errors of the code; a class holds the tables as fields, and each of its
methods, written as the service is, is proved to make exactly that step. The theorems are about the steps: over
all runs of calls, or, where concurrent requests matter (pickups, tokens), over all interleavings of their
database calls. What a step answers and writes is stated a second time without its definition, as a condition a caller could check and
the rows that change: in the modules named `...Laws`, and at the end of Inventory, Cache and Tokens.

| file | models |
|---|---|
| Text, Slug | JavaScript string passes; slugs and location names |
| Locations, LocationLaws | the four-level location hierarchy and the resolution of a chain of columns |
| Csv, CsvKeys | the CSV reader, the printer it inverts, and how the headers of a file may be spelled |
| Users, UserLaws | users, member counts of farmer groups, the bulk import |
| Cache | the bounded analytics cache, and the unbounded map with a time to live that it simulates |
| Inventory | stock transactions, batch quantities and the movements log |
| Orders, OrderServices, OrderLaws | order statuses, roles, payments, deductions |
| OrderPaths | the runs that follow the transition table, and which paths of it happen |
| Pickup, PickupServices, PickupLaws | pickup schedules, slots, bookings and confirmations |
| Tokens | refresh-token rotation |
| Sourcing, SourcingLaws | units, supplier offers and fulfilment |
| Results, Roles | results of calls, user roles |

Where an expected property is false of the code, the code is modelled as it is and the exact condition is proved:

- Cleaning up expired cache entries does change later answers when a set has to evict: `Cache.CleanupVisibleIff`,
  with a run of sets that leads there in `Cache.CleanupCanBeVisible`; without eviction it does not (`Cache.CleanupInvisible`).
- A group's member count is recounted neither when a user is deleted nor when a profile edit changes the group. A deletion leaves
  a count wrong exactly when the user was in a group (`Users.DeleteKeepsCountsIff`, `Users.DeletionMiscounts`), an edit exactly when
  it changes the group (`Users.ProfileKeepsCountsIff`, `Users.ProfileEditMiscounts`); over all runs a count is off by the members
  that left in these two ways since its last recount less those that joined (`Users.RunKeepsValid`).
- A move of a place without renaming it checks names but not slugs; the unique index is what refuses it (`Locations.IndexRefusesIff`,
  `Locations.MoveReachesIndex`).
- A refused attempt to process an order has already reduced the listing when the batch was short (`Orders.RefusedProcessing`,
  `OrderPaths.ShortBatchReducesListing`).
- An order does not always get ready for processing along the table: securing its payment by a status request before the buyer has
  confirmed leaves it at PAYMENT_SECURED, where the buyer's confirmation is closed and the farmer's refused. The exact condition is
  `OrderPaths.PathHappensIff`, such a run `OrderPaths.SecuredTooEarly`.
- The transition table offers ORDER_REJECTED and REFUNDED, which the schema's order statuses (prisma/schema.prisma:407-427) lack: the
  database refuses to store them, so no order ever gets there (`Orders.EveryRun`).
- An accepted offer whose batch already has an order stays accepted without one (`Sourcing.AcceptedIff`, `Sourcing.SharedBatchStuck`).
- An order placed directly from an offer moves the request's fulfilled figure away from its orders by the difference of the
  two quantities, and nothing else does (`Sourcing.StepDrift`, `Sourcing.DriftHappens`).
- A token outlives a logout exactly through a refresh that is between its delete and its create (`Tokens.LogoutBound`, `Tokens.LogoutOrigin`, `Tokens.InFlightOutlivesLogout`).
- Rejecting a stock-out puts nothing back into the inventory (`Inventory.RejectedStockOutKeepsDeduction`).
- Confirming a stock transaction checks and writes in separate database calls: the writes receive the quantity a second time exactly
  when the row has been confirmed in between (`Inventory.LateConfirmationIff`). The other results take a confirmation as one step.

Three rules of the database migrations bear on these results. The results they change are proved with and without them:

- The check constraints `pickup_schedules_capacity_check` and `pickup_slots_capacity_check` and the triggers
  `calculate_schedule_capacity` and `calculate_slot_capacity`. The services alone do not skip bookings that are already cancelled,
  and change a draft's total on a used figure read earlier: without the rules, capacity is given back again
  (`Pickup.CancelBookingDrift`, `Pickup.CancelScheduleEmptiesIff`) and a late change breaks the split (`Pickup.CapacityIsSplit`,
  `Pickup.LateTotalSplits`). With them, used capacity is always right and within bounds, under every interleaving
  (`Pickup.CapacityHolds`, `Pickup.UsedIsLive`), and what happens instead is that a booking cannot be cancelled twice
  (`Pickup.CancelOnceIff`) and that a schedule with a cancelled booking cannot be cancelled (`Pickup.CancelScheduleOnceIff`).
- The trigger `marketplace_order_status_trigger` appends an entry of its own to an order's history. The histories of Orders are the
  entries the services push; the model keeps the stored column beside them, and `OrderPaths.StoredColumn` says what it holds after every run.
- The check constraint `inventory_items_quantity_check` makes the deduction of a whole batch fail, which the service logs and
  ignores: `Inventory.WholeBatchStays` compares one deduction with and without it, `Orders.CheckedDeductionIff` the status change. The
  runs of Inventory and Orders are those without it.

Quantities and money are reals. Identifiers are numbers; a row's id is its index or the next free number. Clock readings, generated
batch ids and tokens, the answer of a regular expression and what other tables say (a batch is in the inventory, a row is
referenced elsewhere) are parameters.

## Model

The results come first. Then comes what each call answers and which rows it leaves alone, said without the steps' own definitions; and
last the methods, each proved to make exactly its step.

| member | source | states |
|---|---|---|
| Slug.SlugifyShape | src/common/utils/slug.util.ts:9-19 | a slug is empty or hyphen-separated non-empty runs of [a-z0-9] |
| Slug.SlugifyIsRead | src/common/utils/slug.util.ts:9-19 | the five string passes compute what one left-to-right reading of the name computes |
| Slug.SlugifyFixedIff | src/common/utils/slug.util.ts:9-19 | slugify leaves a name alone if and only if it is a slug; hence it is idempotent |
| Slug.NormalizeOnlyChangesCase | src/common/utils/slug.util.ts:29-37 | a normalised name is the trimmed, space-collapsed name up to the case of its letters |
| Slug.NormalizedIsTitle | src/common/utils/slug.util.ts:29-37 | in a normalised name each word begins in upper case and goes on in lower case |
| Slug.NormalizePreservesSlug | src/common/utils/slug.util.ts:29-37 | normalising first never changes the slug |
| Slug.LookupFindsStored | src/modules/users/users.service.ts:564 | the slug looked up for a column is that of a stored place if and only if column and name have the same slug |
| Slug.VariantFindsStored | src/modules/users/users.service.ts:564 | every case and spacing variant of a stored name looks up the stored slug |
| Text.TrimShape | src/modules/users/users.service.ts:492 | trimming cuts exactly the white space at both ends |
| Locations.RunKeepsValid | src/modules/locations/locations.service.ts:20-297 | over every run of creations, updates and deletions at all four levels: slug = slugify(name), names and slugs unique under each parent, every parent exists |
| Locations.IndexRefusesIff | src/modules/locations/locations.service.ts:118-146 | an update passes the service's checks and is then refused by the database if and only if it moves to a missing parent, or moves without renaming to where the slug but not the name is taken |
| Locations.CreateNeverReachesIndex | src/modules/locations/locations.service.ts:83-99 | a creation that passes the service's checks is never refused by a unique index or foreign key |
| Locations.DifferentNamesSameSlug | src/common/utils/slug.util.ts:9-37 | "A B" and "A-b" stay different names when normalised and have the slug "a-b", so the slug check is not implied by the name check |
| Locations.MoveReachesIndex | src/modules/locations/locations.service.ts:118-146 | for any two such names, a run of four creations after which moving one place without renaming is refused by the unique index |
| Locations.ResolutionIff | src/modules/users/users.service.ts:536-637 | the columns resolve to a chain if and only if every given level has the level above and names the one place below it with that slug; chains are prefix-closed |
| Csv.LineReadBack | src/modules/users/users.service.ts:495-516 | any line of quoted and bare cells in any mix reads back with its texts trimmed, except an empty bare last cell |
| Csv.QuotedReadBack | src/modules/users/users.service.ts:505 | quoting arbitrary fields and reading the line back trims them and changes nothing else |
| Csv.QuotedLineRoundTripIff | src/modules/users/users.service.ts:495-516 | quoting then reading is the identity on a line if and only if every field is trimmed |
| Csv.UnquotedLineIsSplit | src/modules/users/users.service.ts:508-513 | a line without quotes is split at commas with trimmed pieces, an empty last piece dropped |
| Csv.LinesReadBack | src/modules/users/users.service.ts:489-492 | printed lines read back for LF, CRLF and CR, with or without a byte order mark and a final break |
| Csv.FileRoundTrip | src/modules/users/users.service.ts:488-529 | printing any table with all fields quoted, whose headers can be keys, and parsing the file returns exactly its rows as header-to-value maps |
| CsvKeys.KeyIff | src/modules/users/users.service.ts:518 | a header has a key if and only if the two align: every character in lower case, every run of white space one underscore, nothing else |
| CsvKeys.SameKeyIff | src/modules/users/users.service.ts:518 | two headers have the same key if and only if they agree up to case once each white-space run is an underscore; without underscores of their own, if and only if they agree up to case and white-space runs |
| CsvKeys.ColumnsReadBack | src/modules/users/users.service.ts:488-529 | a printed table whose headers spell its column names in any such way is read as rows keyed by exactly those names, each with its own value |
| Users.RunKeepsValid | src/modules/users/users.service.ts:95-782 | over every run of creations, updates with moves between groups, deletions, profile edits and imports: every stored member count is the number of members plus the drift since its last recount, that is the members deleted or moved away by a profile edit, less those moved in by one; phones and non-null emails are distinct |
| Users.RecountedRunsAreAccurate | src/modules/users/users.service.ts:280-289 | on runs without deletions and profile edits every stored member count is the number of members |
| Users.DeleteKeepsCountsIff | src/modules/users/users.service.ts:351-365 | deleting keeps accurate counts accurate if and only if the user was in no group |
| Users.DeletionMiscounts | src/modules/users/users.service.ts:351-365 | a creation and a deletion after which an empty group counts one member |
| Users.ProfileKeepsCountsIff | src/modules/users/users.service.ts:95-100 | a profile edit keeps accurate counts accurate if and only if it leaves the user's group as it was |
| Users.ProfileEditMiscounts | src/modules/profile/profile.service.ts:86-105 | a creation and a profile edit after which a group with one member counts none |
| UserLaws.ImportedRows | src/modules/users/users.service.ts:653-775 | a row is reported if and only if it has no name, no phone, a short password, an unknown group code, columns that name no place, or a phone or email then in use; it changes nothing then. Every other row adds one FARMER with its phone, email and name, in exactly the group of its code, whose members and count grow by that user, at the place its columns name |
| UserLaws.ReasonIs | src/modules/users/users.service.ts:678-773 | the reason reported is the first of these that applies |
| UserLaws.NameIsSplit | src/modules/users/users.service.ts:697-707 | a full name is split into its first word and the rest, which joined again are the name with single spaces |
| Users.ImportPartition | src/modules/users/users.service.ts:644-782 | the rows not reported are exactly those that each added one user, with the row's phone and email; reported rows changed nothing |
| Cache.OldestShape | src/modules/analytics/analytics-cache.service.ts:213-225 | eviction takes exactly the asked number of entries, or all, none newer than a survivor |
| Cache.TiesInOrder | src/modules/analytics/analytics-cache.service.ts:213-225 | of two entries of the same age, eviction takes the one stored first |
| Cache.FullSetIs | src/modules/analytics/analytics-cache.service.ts:100-114 | a set of a new key in a cache of 1000 leaves 901 entries, the new one and 900 none of which is older than one that went |
| Cache.RunKeepsSubMap | src/modules/analytics/analytics-cache.service.ts:74-246 | through every run the cache stays part of an unbounded map with a time to live fed the same calls |
| Cache.HitsAreLive | src/modules/analytics/analytics-cache.service.ts:74-92 | after every run, whatever the clock readings, a hit returns the unbounded map's live value |
| Cache.ExactWithoutEviction | src/modules/analytics/analytics-cache.service.ts:74-114 | until a set has to evict, and with a clock that does not go back, every get answers exactly as the unbounded map |
| Cache.CleanupInvisible | src/modules/analytics/analytics-cache.service.ts:230-246 | a clean-up changes no answer of any later run in which no set has to evict |
| Cache.CleanupVisibleIff | src/modules/analytics/analytics-cache.service.ts:230-246 | at the first set of any later run that has to evict, the clean-up changes another key's answer if and only if that key's value is live and one store evicts it while the other does not; the cleaned store evicts too if and only if all that was removed is back, and then the evictions differ only in keys created at the same time |
| Cache.CleanupCanBeVisible | src/modules/analytics/analytics-cache.service.ts:230-246 | a run of 1000 sets after which it does |
| Cache.Accounting | src/modules/analytics/analytics-cache.service.ts:74-161 | after every run: at most 1000 entries, the size statistic is right, hits + misses = gets, first-time inserts = size + evictions + expired gets + deletes |
| Cache.GetOrSetAnswers | src/modules/analytics/analytics-cache.service.ts:190-208 | getOrSet answers with the unbounded map's live value or the computed one, which is then stored; a cached null is a hit and computed again |
| Inventory.LedgerAgreesWithLog | src/modules/aggregation/aggregation.service.ts:386-455 | after every run: on hand = replay of the log, never negative; on hand + processed + taken by stock-outs = confirmed stock-ins and transfers; each of those received once, in its batch, with its quantity, nothing else ever |
| Inventory.RunKeepsValid | src/modules/aggregation/aggregation.service.ts:386-1118 | the invariant behind it, from every valid ledger |
| Inventory.RejectedStockOutKeepsDeduction | src/modules/aggregation/aggregation.service.ts:477-553 | a stock-out is still open for rejection, and rejecting it restores nothing |
| Inventory.RejectedForGood | src/modules/aggregation/aggregation.service.ts:477-553 | after a rejection, on every later run the row is rejected, never received, and can be neither confirmed nor rejected |
| Inventory.ConfirmedForGood | src/modules/aggregation/aggregation.service.ts:386-455 | after a confirmation, on every later run the row is confirmed, received once, and can be neither confirmed nor rejected |
| Inventory.LateConfirmationIff | src/modules/aggregation/aggregation.service.ts:386-448 | the writes of a confirmation, made after other calls have run since its check: the ledger stays valid if and only if the row was not confirmed in between; otherwise the transaction is received twice |
| Inventory.WholeBatchStays | prisma/migrations/20260121120002_views_constraints/migration.sql:26-27 | with the check that keeps inventory quantities positive, the one difference is an order for exactly what its batch holds: it goes through and the batch stays as it was |
| Orders.EveryRun | src/modules/marketplace/marketplace.service.ts:820-878 | for all actors on all runs: the status is the last history entry and never one the schema lacks, the stored column is the history with the trigger's entries, payments name the right parties and amount, an order is deducted no more often than it entered PROCESSING, no two orders share a batch |
| Orders.DeductedAtMostOnce | src/modules/marketplace/marketplace.service.ts:1172-1194 | on every run, whoever acts, staff included, an order enters PROCESSING at most once, after its farmer confirmed the payment, and is deducted from its batch at most once |
| Orders.EveryChangeByParty | src/modules/marketplace/marketplace.service.ts:832-878 | on every run each history entry names the order's buyer, its farmer, or a user with a bypassing role |
| OrderLaws.OrderMilestones | src/modules/marketplace/marketplace.service.ts:48-69 | on every run in which nobody with a bypassing role changes an order past the table: it is delivered only after going out, goes out only after collection or an approved quality check, completes only after collection or delivery, each stage of a pickup and of a transport follows the one before, all after the payment, and rejected quality is never delivered |
| OrderLaws.StatusAnswerIff | src/modules/marketplace/marketplace.service.ts:820-866 | a status change is made if and only if the order exists, the role or the party allows it, a party is where that status is granted from (given status by status), the gate is open, a row can hold the status, and the batch is not short for PROCESSING |
| Orders.GateIff | src/modules/marketplace/marketplace.service.ts:841-857 | a party that is not staff moves PAYMENT_SECURED to IN_TRANSIT if and only if the farmer has confirmed the payment |
| Orders.NoGoodsBeforeConfirmation | src/modules/marketplace/marketplace.service.ts:841-857 | in no reachable state does anyone but staff make that move without the buyer's confirmation, of an amount within 0.01, and the farmer's |
| Orders.FarmerConfirmsOnce | src/modules/payment/payment.service.ts:685-731 | the farmer's confirmation succeeds at most once per payment, whatever happens in between |
| OrderLaws.BuyerConfirmsIff | src/modules/payment/payment.service.ts:506-602 | the buyer's confirmation succeeds if and only if it is the buyer's, before PAYMENT_SECURED, within 0.01 of the total; the payment is then secured and confirmed, the order at PAYMENT_SECURED |
| OrderLaws.FarmerConfirmsIff | src/modules/payment/payment.service.ts:685-787 | the farmer's succeeds if and only if the payment is secured, confirmed by the buyer and not by the farmer; the order gets ready if and only if it was at PAYMENT_SECURED or the farmer bypasses the table |
| OrderLaws.PaymentRequestIff | src/modules/payment/payment.service.ts:138-183 | a status request changes the status of its payment only, and the order if and only if it newly secures the payment of a party before PAYMENT_SECURED, or of a payer who bypasses the table |
| OrderPaths.TableRuns | src/modules/marketplace/marketplace.service.ts:48-69 | on table-following runs ORDER_PLACED and the pushed history are a path in the table, of at most ten changes, no status twice |
| OrderPaths.StoredColumn | prisma/migrations/20260121120001_triggers/migration.sql:232-246 | on every run, with each write pushing its entry and the trigger appending its own: the entries pushed into the column are the history, its last entry has the status, and on table-following runs each change has two entries |
| OrderPaths.PathBounds | src/modules/marketplace/marketplace.service.ts:48-69 | the ranking measure: every path of the table is bounded by it and repeats no status |
| OrderPaths.TerminalStays | src/modules/marketplace/marketplace.service.ts:48-69 | completed, cancelled, disputed and rejected orders never change on such runs |
| OrderPaths.EveryPathHappens | src/modules/marketplace/marketplace.service.ts:820-878 | conversely, a path of the table over storable statuses is the history of a table-following run of calls that exist (payment confirmations, the staff entry points, the stock-out, the collection, direct changes to requestable statuses), provided that the payment can be confirmed by the farmer if the path goes through READY_TO_PROCESS and that the batch is not short if it goes through PROCESSING |
| OrderPaths.PathHappensIff | src/modules/payment/payment.service.ts:685-731 | for every order of a valid world with a staff user, a path of the table over storable statuses is the history of some table-following run if and only if it avoids READY_TO_PROCESS or the farmer has not confirmed and, at PAYMENT_SECURED, the buyer has, of a payment that is secured or whose payer has no bypassing role; a short batch is no obstacle, as it can be restocked |
| OrderPaths.SecuredTooEarly | src/modules/payment/payment.service.ts:138-183 | for every placement, a table-following run of three calls after which the order is at PAYMENT_SECURED and no table-following run ever takes it to READY_TO_PROCESS |
| OrderPaths.TenChangesHappen | src/modules/marketplace/marketplace.service.ts:48-69 | the bound of ten is reached by such a run after every allowed placement, whatever its batch and its parties' roles, where there is a staff user |
| Orders.RefusedProcessing | src/modules/marketplace/marketplace.service.ts:886-938 | processing is refused if and only if the checks refuse or the batch is short; orders, payments and inventory are then untouched, and the listing is reduced exactly when the batch was the reason and it was not at zero |
| OrderPaths.ShortBatchReducesListing | src/modules/marketplace/marketplace.service.ts:886-938 | a run after which the refused attempt still halves the listing |
| Orders.DeductionIff | src/modules/marketplace/marketplace.service.ts:886-938 | in the services alone, setting an order to PROCESSING changes the inventory if and only if it succeeds and the batch is known; the batch then loses the quantity once |
| Orders.CheckedDeductionIff | prisma/migrations/20260121120002_views_constraints/migration.sql:26-27 | with the check on inventory quantities the same changes succeed with the same other effects, and the inventory changes if and only if the batch also holds more than the order takes |
| Pickup.CapacityIsSplit | src/modules/transport/transport.service.ts:813-1408 | the services alone, under every interleaving of their writes: slots are split into used and available, used is what the bookings hold, and a schedule is split if and only if the last change of its total had read the used figure then stored; a change of the total written next splits if and only if the figure it read is the stored one |
| Pickup.LateTotalSplits | src/modules/transport/transport.service.ts:849-871 | an interleaving of four writes after which used 5 and available 10 make a total of 10 |
| Pickup.CapacityHolds | prisma/migrations/20260121120002_views_constraints/migration.sql:46-50 | with the capacity checks and triggers of the migrations, under every interleaving: capacities are split and never exceeded or negative, a booking is released at most once, and used is the quantity of the bookings not released |
| Pickup.UsedWithinTotal | src/modules/transport/transport.service.ts:1198-1208 | the services alone, one call at a time: used is at most the total, a draft has nothing used; used is the live bookings quantity if and only if no booking of positive quantity was released twice |
| Pickup.UsedIsLive | prisma/migrations/20260121120002_views_constraints/migration.sql:46-50 | with the checks and one call at a time, used is always the live bookings quantity |
| Pickup.CancelBookingDrift | src/modules/transport/transport.service.ts:1351-1408 | the service without the checks: cancelling moves used away from the live quantity by the booking quantity when it was cancelled before, by nothing otherwise |
| Pickup.CancelledTwiceDrifts | src/modules/transport/transport.service.ts:1351-1408 | a run of the services without the checks that ends with minus 5 used |
| Pickup.CancelOnceIff | prisma/migrations/20260121120002_views_constraints/migration.sql:49-50 | with the checks, a cancellation the service allows is refused if and only if the booking was cancelled before |
| Pickup.CancelScheduleEmptiesIff | src/modules/transport/transport.service.ts:1010-1083 | the service without the checks: the loop cancels every booking and drives used to zero if and only if none of positive quantity was cancelled before; otherwise to minus what had been returned |
| Pickup.CancelScheduleOnceIff | prisma/migrations/20260121120002_views_constraints/migration.sql:46-50 | with the checks, a schedule the service would cancel can be cancelled if and only if none of its bookings was cancelled before; used is then zero |
| Pickup.PickupProvenance | src/modules/transport/transport.service.ts:1464-1768 | under every interleaving of the pickup writes, with or without the checks, and of stock calls that each are one step: a confirmed booking has exactly one receipt and one stock transaction, same batch and quantity, which entered the inventory once if confirmed and never otherwise; an unconfirmed booking has none (overlapping stock confirmations are `Inventory.LateConfirmationIff`) |
| Pickup.ConfirmedIff | src/modules/transport/transport.service.ts:1509-1519 | a pickup is confirmed if and only if its farmer asks in time, it is neither confirmed nor cancelled, and the batch has no receipt |
| Pickup.OnlyOwners | src/modules/transport/transport.service.ts:844-1408 | bookings change only for their farmer or through the provider's cancellation; totals and statuses of schedules only for their provider |
| PickupLaws.BookedIff | src/modules/transport/transport.service.ts:1194-1281 | a booking is made if and only if the schedule exists, is published or active and has room; it is then one booking of that farmer and quantity with its own full slot, and nothing else changes |
| PickupLaws.CancelledForGood | src/modules/transport/transport.service.ts:1010-1083 | with and without the checks: after a cancellation of a schedule, no later call books it, reopens it or revives one of its bookings |
| PickupLaws.CancelledIff | src/modules/transport/transport.service.ts:1010-1083 | a schedule is cancelled if and only if its provider asks and it is neither completed nor cancelled; exactly its bookings are cancelled with it |
| Pickup.CallIsWrite | src/modules/transport/transport.service.ts:813-1768 | every call changes nothing or makes one of the writes that are interleaved |
| Pickup.RunIsInterleaving | src/modules/transport/transport.service.ts:813-1768 | calls made one at a time are one of the interleavings |
| Tokens.OneSuccessor | src/modules/auth/auth.service.ts:219-279 | under every interleaving a token has at most one successor and one predecessor, of the same user, and a token with a successor is no longer stored |
| Tokens.TokensAreConserved | src/modules/auth/auth.service.ts:147-287 | per user: issued by login = live + refreshes between delete and create + removed by logout + lost to two collisions |
| Tokens.LogoutBound | src/modules/auth/auth.service.ts:281-287 | after a logout and until the next login, no more live tokens than refreshes in flight at the logout |
| Tokens.LogoutOrigin | src/modules/auth/auth.service.ts:219-287 | every token live after a logout and before the next login ends a chain of one or more rotations, all made after the logout, that starts at a token a refresh in flight at the logout had deleted |
| Tokens.InFlightOutlivesLogout | src/modules/auth/auth.service.ts:252-263 | a refresh in flight at the logout does store a live token afterwards |
| Tokens.RefreshedIff | src/modules/auth/auth.service.ts:219-279 | a refresh alone succeeds if and only if its token is stored and not expired and a proposal is new; that token is replaced, no other touched |
| Tokens.ExpiredNeverRotates | src/modules/auth/auth.service.ts:219-279 | under every interleaving, a token expired whenever it is looked for gets no successor |
| Sourcing.ConvertKeepsWeight | src/modules/marketplace/marketplace.service.ts:2909-3045 | converting to the request's unit keeps the weight, for every pair of units, and undoes itself |
| Sourcing.FulfilledIsOffered | src/modules/marketplace/marketplace.service.ts:2888-3061 | on every run a request's fulfilled figure weighs what its converted offers weigh, whatever the units; an offer becomes at most one order and a batch belongs to at most one |
| Sourcing.FulfilledIsOrdered | src/modules/marketplace/marketplace.service.ts:2888-3061 | on runs where offers become orders by acceptance, or directly for their own weight, it weighs what the request's orders weigh |
| Sourcing.StepDrift | src/modules/marketplace/marketplace.service.ts:702-749 | only an order placed directly from an offer for another quantity moves the figure away from the orders, by exactly the difference |
| Sourcing.DriftHappens | src/modules/marketplace/marketplace.service.ts:702-749 | a run that leaves a request 3 kg ahead of its orders |
| Sourcing.TermsFrozen | src/modules/marketplace/marketplace.service.ts:2561-2675 | once an offer exists, the request's unit and quantity never change |
| Sourcing.AcceptanceFulfils | src/modules/marketplace/marketplace.service.ts:3030-3061 | an acceptance adds the order's weight, and leaves the request fulfilled exactly when the weight asked for is reached or it was already |
| Sourcing.AcceptedIff | src/modules/marketplace/marketplace.service.ts:2888-3017 | an acceptance makes an order if and only if the owner accepts a pending offer whose batch is in the inventory and has no order yet |
| Sourcing.SharedBatchStuck | src/modules/marketplace/marketplace.service.ts:2923-3001 | a run in which the second of two offers of one batch is accepted, gets no order, and stays accepted |
| Sourcing.AcceptedOnce | src/modules/marketplace/marketplace.service.ts:2888-2950 | the owner's first attempt decides an offer, even when refused for want of a batch: no later acceptance succeeds |
| LocationLaws.CreatedIff | src/modules/locations/locations.service.ts:83-99 | a place is made if and only if its parent exists and no sibling has its slug; new id, normalised name, slug of that name, other rows kept |
| LocationLaws.UpdatedIff | src/modules/locations/locations.service.ts:118-146 | a place is changed if and only if it and the parent exist and no other place there has the slug; the name given is stored normalised with its slug, the parent as given, the rest kept |
| LocationLaws.DeletedIff | src/modules/locations/locations.service.ts:148-152 | exactly the place and what lies below it go; every other row stays as it is |
| UserLaws.CreatedIff | src/modules/users/users.service.ts:105-246 | a user is created if and only if phone and email are free, a manager has a center, and group and center exist; the user is stored as asked, the group recounted |
| UserLaws.UpdatedIff | src/modules/users/users.service.ts:370-479 | a user is updated if and only if the checks hold; each field given is stored, each other kept, the groups left and joined recounted |
| UserLaws.DeletedIff | src/modules/users/users.service.ts:351-365 | a user is deleted if and only if the user exists and nothing refers to the row; no other user and no count changes |
| UserLaws.ProfileEditIff | src/modules/users/users.service.ts:95-100 | a profile edit changes the group of its user only, if user and group exist |
| Cache.RoomySetIs | src/modules/analytics/analytics-cache.service.ts:100-114 | any other set puts its entry in place or at the end and touches no other |
| Cache.RemovalAnswers | src/modules/analytics/analytics-cache.service.ts:119-150 | a deletion answers whether the key was there, an invalidation how many keys went, which are those it matches |
| Inventory.RejectedIff | src/modules/aggregation/aggregation.service.ts:477-553 | a rejection is made if and only if the row is pending; it marks the row and touches no quantity |
| Inventory.ConfirmedIff | src/modules/aggregation/aggregation.service.ts:386-455 | a confirmation is made if and only if the row is a pending stock-in; it marks the row and adds its quantity to its batch only |
| Inventory.StockInAdds | src/modules/aggregation/aggregation.service.ts:740-776 | one confirmed row of the kind, batch and quantity asked for, and that quantity in that batch only |
| Inventory.StockOutIff | src/modules/aggregation/aggregation.service.ts:1094-1118 | a stock-out is made if and only if the center's figure covers it; one pending row, and its batch loses what is there up to the quantity |
| Inventory.DeductedIff | src/modules/marketplace/marketplace.service.ts:907-938 | a deduction is refused if and only if the batch is in the inventory and holds less; no row and no other batch changes |
| Inventory.PendingAdds | src/modules/transport/transport.service.ts:1660-1690 | the row of a pickup is a pending stock-in and adds nothing yet |
| OrderLaws.StatusWrites | src/modules/marketplace/marketplace.service.ts:868-938 | a change made writes the order's status and one entry in the asker's name, and for PROCESSING takes the quantity off the listing, down to zero; all else stays |
| OrderLaws.EntryPointsIff | src/modules/marketplace/marketplace.service.ts:1172-1345 | who moves an order from where to where by each dedicated entry point, if and only if |
| OrderLaws.EnteredOnlyBy | src/modules/marketplace/dto/update-order-status.dto.ts:23-38 | READY_TO_PROCESS, PROCESSING, READY_FOR_COLLECTION, RELEASED and COLLECTED are entered by their entry points only |
| OrderLaws.StockOutIff | src/modules/aggregation/aggregation.service.ts:1120-1140 | a stock-out by a party moves an order if and only if it is ready for collection, collected or approved, to RELEASED in the first case and OUT_FOR_DELIVERY otherwise |
| OrderLaws.PlacedIff | src/modules/marketplace/marketplace.service.ts:566-640 | an order is placed if and only if no other has its batch; it is the last row, at ORDER_PLACED, with what was asked for |
| OrderLaws.PaymentCreatedIff | src/modules/payment/payment.service.ts:98-136 | a payment is created if and only if the order exists and has none; pending, confirmed by nobody |
| PickupLaws.DraftIff | src/modules/transport/transport.service.ts:844-952 | a schedule's total is changed and a schedule published if and only if its provider asks and it is a draft; other schedules kept |
| PickupLaws.BookingCancelledIff | src/modules/transport/transport.service.ts:1351-1408 | a booking is cancelled if and only if its farmer asks before the pickup; its slot and schedule get the quantity back, all else is kept |
| PickupLaws.CancelledSlots | src/modules/transport/transport.service.ts:1044-1066 | with a schedule, exactly the slots of its bookings get their quantity back and are available |
| PickupLaws.SlotCreatedIff | src/modules/transport/transport.service.ts:1177-1192 | an empty slot for an existing schedule, nothing else |
| PickupLaws.ConfirmationWrites | src/modules/transport/transport.service.ts:1540-1700 | a confirmed pickup marks its booking and adds one receipt and one pending stock-in of the same batch and quantity; all else is kept |
| PickupLaws.StatusMoves | src/modules/transport/transport.service.ts:909-1083 | a schedule's status moves from draft to published, or to cancelled, and never otherwise |
| Tokens.FoundIff | src/modules/auth/auth.service.ts:219-250 | a refresh starts if and only if its token is stored and not expired; nothing is stored or removed |
| Tokens.LoginIff | src/modules/auth/auth.service.ts:147-211 | a login stores the first new one of two proposals, if there is one |
| Tokens.LoggedOutIff | src/modules/auth/auth.service.ts:281-287 | a logout leaves exactly the other users' tokens |
| SourcingLaws.UnitWeights | src/modules/marketplace/marketplace.service.ts:717-739 | a ton is 1000 kg, a unit 50 kg, any other unit a kilogram |
| SourcingLaws.RequestUpdatedIff | src/modules/marketplace/marketplace.service.ts:2561-2660 | an update is answered if and only if the buyer asks and the status allows it; it stores quantity and unit of a draft and nothing else |
| SourcingLaws.StatusSetIff | src/modules/marketplace/marketplace.service.ts:2677-2740 | publishing and closing set the status if and only if the buyer asks |
| SourcingLaws.OfferSubmittedIff | src/modules/marketplace/marketplace.service.ts:2776-2810 | an offer is taken if and only if the request is open and it is in time; it is the last row, pending |
| SourcingLaws.AcceptanceWrites | src/modules/marketplace/marketplace.service.ts:2888-3061 | a converted offer with its order and its weight added to the request; or an accepted offer alone; or nothing |
| SourcingLaws.OrderedIff | src/modules/marketplace/marketplace.service.ts:566-749 | a direct order is placed if and only if its batch is new and no order has its offer; what it converts, and the row that stays for an unknown offer |
| Locations.ResolveLocationFromSlugs | src/modules/users/users.service.ts:536-637 | the method, branch by branch, computes that resolution |
| Locations.FindFirst | src/modules/users/users.service.ts:564-570 | finds the place with the parent and slug, if there is one |
| Locations.LocationsService.Create | src/modules/locations/locations.service.ts:83-99 | exact new tables and answer, including both conflict answers and a missing parent |
| Locations.LocationsService.Update | src/modules/locations/locations.service.ts:118-146 | exact new tables and answer, with the name check on moves and the slug check on renames only |
| Locations.LocationsService.Delete | src/modules/locations/locations.service.ts:148-152 | exact new tables: the rows below a deleted place go level by level |
| Csv.CloseQuote | src/modules/users/users.service.ts:500-504 | the inner cursor stops at the first quote that is not doubled, or at the end |
| Csv.IndexOfComma | src/modules/users/users.service.ts:509-510 | the next comma, or the end of the line |
| Csv.ParseLine | src/modules/users/users.service.ts:495-516 | the two-cursor scanner ends on every line, unclosed quotes included, and computes the field reading the round trips are about |
| Csv.ParseCsvToRows | src/modules/users/users.service.ts:488-529 | the file reader computes the row maps the file round trip is about |
| Users.UsersService.CreateUser | src/modules/users/users.service.ts:105-246 | exact new tables and answer, with the duplicate, manager, group and center checks and the recount |
| Users.UsersService.UpdateUser | src/modules/users/users.service.ts:370-479 | exact new tables and answer, recounting the old and the new group |
| Users.UsersService.DeleteUser | src/modules/users/users.service.ts:351-365 | exact new tables and answer, without a recount |
| Users.UsersService.UpdateProfile | src/modules/users/users.service.ts:95-100 | exact new tables and answer, without a recount; a group that does not exist is refused by its foreign key |
| Users.UsersService.UpdateFarmerGroupMemberCount | src/modules/users/users.service.ts:280-289 | the stored count becomes the number of members |
| Users.UsersService.CreateFromRow | src/modules/users/users.service.ts:653-775 | one pass of the loop with its exits in order |
| Users.UsersService.BulkCreateFarmers | src/modules/users/users.service.ts:644-782 | the loop leaves the tables and the report that the partition theorem is about |
| Cache.AnalyticsCacheService.Get | src/modules/analytics/analytics-cache.service.ts:74-92 | exact new cache, statistics and answer |
| Cache.AnalyticsCacheService.Set | src/modules/analytics/analytics-cache.service.ts:100-114 | exact new cache, with the eviction of a tenth when full and the key is new |
| Cache.AnalyticsCacheService.Delete | src/modules/analytics/analytics-cache.service.ts:119-125 | exact new cache and answer |
| Cache.AnalyticsCacheService.InvalidatePattern | src/modules/analytics/analytics-cache.service.ts:131-150 | the deletion loop removes exactly the matching keys and counts them |
| Cache.AnalyticsCacheService.Clear | src/modules/analytics/analytics-cache.service.ts:155-161 | exact new cache and statistics |
| Cache.AnalyticsCacheService.GetOrSet | src/modules/analytics/analytics-cache.service.ts:190-208 | exact new cache and answer |
| Cache.AnalyticsCacheService.EvictOldestEntries | src/modules/analytics/analytics-cache.service.ts:213-225 | sorting and deleting the front removes exactly the oldest keys |
| Cache.AnalyticsCacheService.CleanupExpired | src/modules/analytics/analytics-cache.service.ts:230-246 | the deletion loop removes exactly the expired keys |
| Inventory.AggregationService.CreateStockIn | src/modules/aggregation/aggregation.service.ts:740-776 | exact new transactions and quantities |
| Inventory.AggregationService.ConfirmStockTransaction | src/modules/aggregation/aggregation.service.ts:386-455 | exact new state and answer, with the status and type checks |
| Inventory.AggregationService.RejectStockTransaction | src/modules/aggregation/aggregation.service.ts:477-553 | exact new state and answer; quantities untouched |
| Inventory.AggregationService.CreateStockOut | src/modules/aggregation/aggregation.service.ts:1094-1118 | exact new state: the row deleted when nothing is left |
| Inventory.AggregationService.DeductForOrder | src/modules/marketplace/marketplace.service.ts:907-938 | exact new state: refused when short, skipped when the batch is unknown |
| Inventory.AggregationService.CreatePending | src/modules/transport/transport.service.ts:1660-1690 | the pending transaction a pickup confirmation adds |
| OrderServices.OrderService.CheckStatusChange | src/modules/marketplace/marketplace.service.ts:820-866 | the checks in their order, and nothing written |
| OrderServices.OrderService.PlaceOrder | src/modules/marketplace/marketplace.service.ts:566-640 | one order per batch |
| OrderServices.OrderService.DeductQuantities | src/modules/marketplace/marketplace.service.ts:884-938 | listing first, then batch, which may refuse |
| OrderServices.OrderService.UpdateOrderStatus | src/modules/marketplace/marketplace.service.ts:820-938 | exact new tables and answer, partial writes of refused calls included |
| OrderServices.OrderService.StartOrderProcessing | src/modules/marketplace/marketplace.service.ts:1172-1194 | staff only, from READY_TO_PROCESS |
| OrderServices.OrderService.MarkOrderReadyForCollection | src/modules/marketplace/marketplace.service.ts:1199-1220 | staff only, from PROCESSING |
| OrderServices.OrderService.RecordStockOut | src/modules/aggregation/aggregation.service.ts:1120-1140 | released when ready for collection, out for delivery otherwise |
| OrderServices.OrderService.MarkOrderAsCollected | src/modules/marketplace/marketplace.service.ts:1222-1255 | the buyer only, from RELEASED |
| OrderServices.OrderService.ConfirmDeliveryByBuyer | src/modules/marketplace/marketplace.service.ts:1303-1345 | the buyer only, from DELIVERED, for orders with transport |
| OrderServices.OrderService.CreatePayment | src/modules/payment/payment.service.ts:98-136 | one payment per order, pending |
| OrderServices.OrderService.UpdatePaymentStatus | src/modules/payment/payment.service.ts:138-183 | the payment is written and the order's change attempted; a refusal of the latter is dropped |
| OrderServices.OrderService.ConfirmOrderPayment | src/modules/payment/payment.service.ts:506-602 | the buyer's confirmation with its checks, new or existing payment |
| OrderServices.OrderService.ConfirmPaymentByFarmer | src/modules/payment/payment.service.ts:685-787 | the farmer's confirmation with its checks |
| PickupServices.TransportService.CreatePickupSchedule | src/modules/transport/transport.service.ts:813-842 | exact new tables |
| PickupServices.TransportService.UpdatePickupSchedule | src/modules/transport/transport.service.ts:844-888 | owner and draft only; available recomputed |
| PickupServices.TransportService.PublishPickupSchedule | src/modules/transport/transport.service.ts:909-952 | owner and draft only |
| PickupServices.TransportService.CancelPickupSchedule | src/modules/transport/transport.service.ts:1010-1083 | exact new tables and answer |
| PickupServices.TransportService.ReleaseBookings | src/modules/transport/transport.service.ts:1044-1066 | the loop over the bookings, and the sum of their quantities |
| PickupServices.TransportService.CreatePickupSlot | src/modules/transport/transport.service.ts:1177-1192 | exact new tables |
| PickupServices.TransportService.BookPickupSlot | src/modules/transport/transport.service.ts:1194-1281 | the status and capacity checks, the booking's own full slot, the schedule's counters |
| PickupServices.TransportService.CancelPickupSlotBooking | src/modules/transport/transport.service.ts:1351-1408 | exact new tables and answer; a cancelled booking is cancelled again |
| PickupServices.TransportService.ConfirmPickup | src/modules/transport/transport.service.ts:1464-1768 | exact new tables and answer, unique indexes included |
| Tokens.AuthService.StoreToken | src/modules/auth/auth.service.ts:172-211 | the insertion with one retry on a collision |
| Tokens.AuthService.IssueTokens | src/modules/auth/auth.service.ts:51-125 | exact new table and answer of a login or registration |
| Tokens.AuthService.RefreshTokens | src/modules/auth/auth.service.ts:219-279 | a refresh that nothing runs in between is the find, delete and create steps |
| Tokens.AuthService.Logout | src/modules/auth/auth.service.ts:281-287 | exactly the user's tokens are removed |
| Sourcing.SourcingService.CreateSourcingRequest | src/modules/marketplace/marketplace.service.ts:2486-2520 | exact new tables |
| Sourcing.SourcingService.UpdateSourcingRequest | src/modules/marketplace/marketplace.service.ts:2561-2660 | exact new tables and answer by status |
| Sourcing.SourcingService.PublishSourcingRequest | src/modules/marketplace/marketplace.service.ts:2677-2690 | the owner opens it from any status |
| Sourcing.SourcingService.CloseSourcingRequest | src/modules/marketplace/marketplace.service.ts:2727-2740 | the owner closes it from any status |
| Sourcing.SourcingService.SubmitSupplierOffer | src/modules/marketplace/marketplace.service.ts:2776-2810 | open requests before their deadline only |
| Sourcing.SourcingService.InRequestUnit | src/modules/marketplace/marketplace.service.ts:717-739 | the conversion block, of which acceptance and ordering hold the same text, keeps the weight |
| Sourcing.SourcingService.AcceptSupplierOffer | src/modules/marketplace/marketplace.service.ts:2888-3061 | exact new tables and answer, partial writes of refused calls included |
| Sourcing.SourcingService.CreateOrder | src/modules/marketplace/marketplace.service.ts:566-749 | what a direct order does to orders, offers and requests, unchecked as in the code; the row of an order for an unknown offer stays |

## Left out

- Controllers, guards, decorators and request validation; bounds that validation enforces (quantities and totals at least zero) appear as `Allowed`, `Validated` or `Fits`.
- Notifications, activity logs, email, SMS, uploads, analytics queries, dashboards and badges: no state worth proving.
- Password hashing and JWT signing; tokens and batch ids are parameters. `Tokens.FreshFor` assumes that a removed token is never generated again.
- Expiry of refresh tokens is a parameter of the find step; user deletion, which removes tokens, is not an event.
- The other check constraints of the migrations (positive prices, amounts, order and transaction quantities, listing bounds, center capacity) and the trigger `update_center_stock`; with the last two, a stock-in beyond a center's capacity is confirmed without reaching the inventory, which the service logs and ignores. Unique indexes, foreign keys and enumerations are modelled where a write can meet them.
- Enumerations follow prisma/schema.prisma. The migrations never add CONFIRMED_BY_FARMER to the payment statuses; with them alone the farmer's confirmation could not be stored.
- Non-ASCII case mapping and UTF-16 surrogates; every other string operation is complete.
- Floating-point rounding: reals are exact.
- Infrastructure failures that the code swallows; only refusals the code raises itself occur.
- The methods of `TransportService` are the service without the capacity rules; `Pickup.Ruled` puts the rules around a call.
- `Sourcing.CreateOrder` with an offer index beyond the table answers NotFound and stores nothing; an id that names no offer is `FromMissing`.
- Interleavings of two calls of one kind outside pickups and tokens: one call of the other services is one step.
- In `TransportService.CancelPickupSchedule` the status is written with the capacity at the end, not before the loop; it is one transaction.
- `centerStock` in `Inventory.StockOutStep` is a parameter: only a trigger maintains a center's stock figure. The automatic listing of a stock-in and the order statuses that aggregation sets appear as status changes in Orders, not in Inventory.
- Order creation from listings, negotiations and quotes only places the order; a later transport request, which makes an order one with transport, is not an event. The transport request that processing creates and escrow rows are not modelled.
- Farmer groups are neither created nor deleted by an event (a deleted group has no members); registration creates users without a group and is not an event. Of a profile edit only the group is followed.
- County codes, coordinates, gender, farmer group details, the sub-county list (a parameter of an update), user status and profile pictures.
- The booking status "completed", which blocks a cancellation, is never set by the code and not a status of the model.
- Quality grades, prices, deadlines (a parameter of an offer) and descriptions of sourcing requests; the URGENT status is never set by the code.
- The interval timer that starts a clean-up of the cache, and one clock reading per cache call.
