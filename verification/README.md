# WMS Nusantara: a verified model of the warehouse backend

The warehouse system keeps goods, rack slots, warehouses, delivery orders, vehicles, accounts and
rental invoices in one relational database. This project models those tables as one state, each
request on them as a step, and proves what every run of requests keeps. Most requests write in one
transaction. Where what happens between database calls matters they are cut there: order creation
under goods-row locks, registration under the customer-row lock, status changes, rack transfers,
payments and verdicts whose reads precede their transaction, the refresh of tokens across browser and
server, sign-ins and password changes and resets, and notifications.

## How it is laid out

- `Domain`, `Quantities`, `Sums`, `Shares`: rows, transition tables, rounding, finite sums.
- `Capacity`, `Inventory`, `Pricing`, `Fleet`, `Dispatch`, `Tenancy`: what each request does, as
  functions of the state. A request that throws is `Refused` and changes nothing.
- `System`: requests, runs, and what guarded runs keep.
- `RackTheorems`, `OrderTheorems`, `ReservationTheorems`, `FleetTheorems`, `InboundTheorems`,
  `ServiceTheorems`, `TransitTheorems`, `BillingTheorems`, `RentalTheorems`, `Undoing`, `Isolation`: the
  properties of runs. `Reachable` puts them together from the opening of the business on.
- `Lifecycles`, `GoodsAdmission`, `OrderAdmission`, `TenancyAdmission`: exactly which requests are accepted,
  and what they leave, said of the rows before and after and in figures.
- `Counterexamples` holds a concrete request for each property of the shared tables that fails without
  its guard, from a state in order otherwise; the interleaved ones have theirs beside them.
- `Reservations`, `Registrations`, `PutAways`, `Submissions`, `Rotation`, `Tokens` with `TokenTheorems`,
  `Passwords`, `Notifications` with `Broadcasts` and `Deliveries`: the interleaved protocols and the
  stores beside the shared tables.
- `Tables` and the service classes (`GoodsService`, `LogisticsService`, `WarehouseService`,
  `BillingService`, `UsersService`, `AuthService`, `NotificationsService`, `ApiClient`): the requests
  as they run, row by row and loop by loop. Each method is proved to answer and to leave the tables
  exactly as its specification function says, so every theorem about runs is a theorem about them.

Quantities are integers: volumes in 0.0001 m3, weights in 0.01 kg, money in 0.01 IDR, times in ms.
`toFixed` is the nearest integer, ties away from zero (section 21.1.3.3 of ECMA-262). Slot
capacities and cached figures keep the two decimals of their columns. An order's pro-rata shares are
real numbers until they are rounded.

## Where the code does not keep what one would expect

Each of these is stated as an equivalence: the step keeps the property if and only if the guard holds.

- Receiving an inbound order sets its goods to INSPECTING without recalculating slots
  (`backend/src/modules/logistics/logistics.service.ts` 1483-1490). The caches stay right exactly when
  what leaves each slot and warehouse does not show in its rounded figure
  (`RackTheorems.ReceivingIsInvisible`); receiving only goods that are not stored is always fine.
- DELAYED holds neither vehicle nor driver, and resuming from it checks nothing. Assignments stay
  exclusive exactly when a resume finds its vehicle and driver free (`FleetTheorems.ResumeIsClear`).
- An Admin may mark a PICKUP order DELIVERED by a plain status update, which looks at no goods
  (`logistics-state-machine.util.ts` 38-79 checks only customers and drivers). An order is then left
  waiting exactly when all its goods are stored already (`InboundTheorems.InboundGuard`).
- An update that picks an inbound order up sets its waiting goods in transit once; a later status change may
  set one of them back, and cancelling another order with the same goods makes them drafts. No good on a
  truck waits for pickup exactly when neither happens (`TransitTheorems.LoadGuard`).
- Receiving brings DELIVERED goods back, a first rental replaces a legacy allotment of 50 m3 by whatever
  is rented, and changing the rented warehouse leaves goods on their way behind; the rented space stays
  bounded exactly when what comes back, is there, or moves along fits (`RentalTheorems.RentalGuard`).
- Status changes and transfers read their goods before they write, and lock nothing. Racks stay within
  their limits exactly when each commit finds its slot still taking the goods, and caches right exactly
  when the slot and warehouse it read are still the goods' own or the difference does not show
  (`PutAways.StillTakes`, `PutAways.Covers`).
- Notifications to one recipient from several requests are checked and inserted in separate calls. The
  limit of fifty and the minute between identical ones hold exactly when each insertion still finds
  room and no identical one near (`Deliveries.StillFits`).
- `verifyPayment` looks at no invoice status. PAID keeps its meaning exactly when a payment is under
  review or the verdict repeats what the invoice says (`BillingTheorems.VerdictApplies`).
- The shown availability decides a registration exactly unless more is occupied than rented and the
  request is within the tolerance (`RentalTheorems.AvailabilityDecides`).
- `verifyPayment` accepts a rejection of a PAID invoice and reopens it. PAID is final exactly over runs
  in which nobody does that (`BillingTheorems.NeverReopened`).
- `payInvoice` and `verifyPayment` check the invoice before their transaction. Interleaved, payments
  stay in order exactly when what a commit finds still fits it (`Submissions.Applies`).
- A vehicle swapped on the road is never set IN_SERVICE, a status update looks neither at the vehicle an
  order resumes with nor at who else holds the one it frees, and a proof of delivery frees a vehicle in
  any status. Vehicles of orders under way stay
  IN_SERVICE exactly under `ServiceTheorems.ServiceGuard`.
- The server looks a refresh token up and revokes it in two database calls. Tokens are exchanged once
  exactly when no request is accepted between those two calls of another with the same token
  (`Rotation.LookupIsAlone`); with the browser's single flight in front that is always so.
- The single flight lives in the page. Each token is sent once exactly when no reload comes between
  sending the stored token and storing its successor (`TokenTheorems.ReloadIsQuiet`).
- A reset request supersedes and inserts in two calls, and a confirmation looks its token up before its
  transaction. Reset tokens stay one at a time and are used up once exactly when no unused one is left
  at the insertion and the token is still unused at the commit (`Passwords.Fresh`); sessions end for
  good exactly when no refresh or sign-in of the user is past its lookup (`Passwords.Idle`).

## Model

| member | source | states |
|---|---|---|
| Reachable.EveryReachableState | backend/src/modules/logistics/logistics.service.ts:651-1627 | in every state reachable from empty goods, order and invoice tables, by any requests: racks are within their limits, no package is promised twice, orders fit their vehicles, and PENDING_PAYMENT means one payment under review of the stored total |
| Reachable.EveryGuardedState | backend/src/modules/goods/goods.service.ts:397-485 | in every state reachable under the four guards besides: caches are what reconciliation writes, assignments are exclusive, no inbound order is left waiting, and PAID means one verified payment |
| Reachable.GuardsAreExact | backend/src/modules/goods/goods.service.ts:491-776 | a run keeps all of that throughout if and only if every request in it meets the four guards: none of them can be weakened |
| RackTheorems.StepAndCaches | backend/src/modules/goods/goods.service.ts:397-466 | from up-to-date caches, any request leaves every slot's used volume and status and every warehouse's used capacity what a full recomputation gives, receiving if and only if what it takes off the racks is invisible after rounding |
| RackTheorems.IncrementalIsFullRecompute | backend/src/modules/goods/goods.service.ts:471-485 | after any run whose receivings are invisible, reconciling everything changes nothing: recomputing the touched slots refines recomputing all |
| RackTheorems.NothingStoredIsInvisible | backend/src/modules/logistics/logistics.service.ts:1483-1490 | receiving an order with no stored good never stales a cache |
| Capacity.ReconcileIsTheFixpoint | backend/src/modules/goods/goods.service.ts:471-485 | reconciliation leaves a state alone if and only if all its caches are up to date |
| Counterexamples.ReceivingStalesCaches | backend/src/modules/logistics/logistics.service.ts:1483-1490 | from an orderly state, receiving an order with a stored good leaves both caches a cubic metre too high |
| RackTheorems.RacksStayWithinLimits | backend/src/modules/goods/goods.service.ts:553-624 | over any run, the stored volume of a slot exceeds its capacity by at most 0.005 m3 and the weight 50 kg per m3 by at most 0.05 kg; stored goods sit in slots of their own warehouse, cold ones in cold slots |
| RackTheorems.CheckedPutAway | backend/src/modules/goods/goods.service.ts:587-616 | one check against a rounded remainder leaves a slot within half a rounding unit of its limits, whatever was there before, for goods with volume and weight; others leave it so if it was |
| GoodsAdmission.GoodsEnterOpenSlots | backend/src/modules/goods/goods.service.ts:567-569 | whatever is requested, a good comes to be stored in a slot only at an Admin's request and only if the slot is not under MAINTENANCE |
| GoodsAdmission.ChecksFindOpenSlots | backend/src/modules/goods/goods.service.ts:836-840 | cut at its calls too, a put-away or transfer goes on to write only a slot that was open when it was checked |
| GoodsAdmission.PutAwayIsInOrder | backend/src/modules/goods/goods.service.ts:545-634 | an accepted put-away takes goods under inspection or stored already to the slot named or else their own, open, in their warehouse, cold if need be, with room but for half a rounding unit, and changes no other good |
| GoodsAdmission.PutAwayConfirmsOrders | backend/src/modules/goods/goods.service.ts:742-772 | it confirms exactly the received inbound orders of the goods that are stored completely now, and touches no other order |
| GoodsAdmission.TransferIsInOrder | backend/src/modules/goods/goods.service.ts:784-905 | an accepted transfer takes stored goods from one known slot to another where they belong in the same sense |
| GoodsAdmission.FittingPutAwayIsAccepted | backend/src/modules/goods/goods.service.ts:545-634 | an Admin's put-away from INSPECTING is accepted into any slot of the warehouse that is open, cold if need be, and within whose capacity less half a rounding unit the goods fit; they sit there afterwards and no other good changes |
| GoodsAdmission.PutAwayReturnsToItsSlot | backend/src/modules/goods/goods.service.ts:546-551 | the same without naming a slot, into the one the goods have |
| GoodsAdmission.FittingTransferIsAccepted | backend/src/modules/goods/goods.service.ts:784-905 | the same of a transfer to another such slot |
| GoodsAdmission.SlotsTell | backend/src/modules/goods/goods.service.ts:409-434 | with caches up to date a slot shows OCCUPIED if and only if 0.005 m3 or more is stored in it, maintenance aside, and its figure is the nearest 0.01 m3 |
| GoodsAdmission.WarehousesTell | backend/src/modules/goods/goods.service.ts:440-466 | and a warehouse's figure is the nearest 0.01 m3 of what is stored there |
| Lifecycles.GoodsMoveByOneStage | backend/src/modules/goods/utils/goods-state-machine.util.ts:7-34 | goods go one stage on or one back, but for racks and deliveries, move within the racks, or are cancelled before they are stored and not on the road, and nothing else |
| Lifecycles.OccupyingStages | backend/src/modules/goods/goods.service.ts:277-287 | goods count against the rented space from registration until they are delivered or cancelled |
| Lifecycles.LeavingIsAccepted | backend/src/modules/goods/goods.service.ts:491-544 | a status change other than a put-away is accepted if and only if an Admin takes any such step, the owner sends in, calls back, has delivered or cancels, or a driver takes on the road or delivers |
| Lifecycles.LeavingChangesOneRow | backend/src/modules/goods/goods.service.ts:617-656 | it changes that good's status and nothing else of any good, but that the slot is given up when it is over |
| PutAways.StepAndOrder | backend/src/modules/goods/goods.service.ts:491-776 | every step of interleaved status changes and transfers, cut between reading the goods, checking the slot and writing, keeps racks within limits and caches right, a commit if and only if its slot still takes the goods and it recalculates where they were, up to what rounding hides |
| PutAways.CommitsDecide | backend/src/modules/goods/goods.service.ts:784-905 | over any interleaving of them with each other and all other requests both hold throughout if and only if every commit is still right and every other request meets its guard |
| PutAways.CurrentReadCovers | backend/src/modules/goods/goods.service.ts:617-656 | a request that writes goods still in the slot and warehouse it read recalculates everything it has to |
| PutAways.PutAtOnce | backend/src/modules/goods/goods.service.ts:545-634 | read, checked and written without a pause, a put-away is accepted as, and does what, the atomic one does |
| PutAways.MoveAtOnce | backend/src/modules/goods/goods.service.ts:830-905 | the same of a transfer |
| PutAways.LeaveAtOnce | backend/src/modules/goods/goods.service.ts:491-544 | and of any other status change |
| PutAways.TogetherTheyOverfill | backend/src/modules/goods/goods.service.ts:575-624 | two goods that each fit a slot alone, checked together, overfill it |
| PutAways.SecondTransferStales | backend/src/modules/goods/goods.service.ts:789-905 | two transfers that read the same slot leave the first target with a figure for goods that left it |
| RackTheorems.TwoViewsAgree | backend/src/modules/warehouse/warehouse.service.ts:318-324 | the slot figures shown for a warehouse add up to its stored figure within 0.005 m3 for each slot and one more |
| RackTheorems.ShownIsCached | backend/src/modules/warehouse/utils/warehouse-slot-metrics.util.ts:34-46 | with caches up to date the slot figure shown is the cached one, fallback included, and within half a unit of the exact sum |
| RackTheorems.SlotsPartition | backend/src/modules/goods/goods.service.ts:447-455 | the goods stored in some slots of a warehouse measure the sum of what each of those slots holds |
| ReservationTheorems.NothingIsPromisedTwice | backend/src/modules/logistics/logistics.service.ts:842-905 | over any run of atomic requests, active orders of one type never claim more packages of a good than it has, and order rows stay the rounded shares of their items |
| Reservations.NoInterleavingOverclaims | backend/src/modules/logistics/logistics.service.ts:822-906 | the same in every interleaving of order creations that lock their goods rows, check and insert, with aborts, status changes and removals in between |
| Reservations.StepKeepsProtected | backend/src/modules/logistics/logistics.service.ts:826-905 | every step of any transaction keeps each passed check true of the committed rows, because only the holder of a goods row can claim it |
| Reservations.InsertsAreSerialisable | backend/src/modules/logistics/logistics.service.ts:826-905 | an insert that commits would pass every reservation check against the rows it commits to |
| Reservations.NoReachableStateOverclaims | backend/src/modules/logistics/logistics.service.ts:822-906 | from any state the requests can reach, once transactions are let in, no interleaving overclaims |
| Reservations.NothingReactivates | backend/src/modules/logistics/utils/logistics-state-machine.util.ts:7-33 | no move of an order, by any request, leads from an inactive status to an active one |
| Reservations.RequestsOnlyMove | backend/src/modules/logistics/logistics.service.ts:1058-1186 | every request but a creation moves the orders there are only by such moves |
| ReservationTheorems.OrdersConserveGoods | backend/src/modules/logistics/logistics.service.ts:776-798 | the stored volumes (and weights) of all active orders of one type sum to at most what is registered for the goods they carry plus half a rounding unit per order |
| ReservationTheorems.PartsOfOneGood | backend/src/modules/logistics/logistics.service.ts:776-789 | the shares all active orders of one type take of one good add up to at most the whole good |
| Shares.Exchange | backend/src/modules/logistics/logistics.service.ts:776-789 | the sum over orders of their goods' shares is the sum over goods of their orders' shares |
| OrderTheorems.StepKeepsSound | backend/src/modules/logistics/logistics.service.ts:776-798 | every request keeps each order's totals and cold flag the ones computed from its items, and its items goods of its own customer |
| FleetTheorems.EveryVehicleFits | backend/src/common/utils/fleet-compatibility.util.ts:51-151 | over any run, an order with a vehicle fits it: cold cargo means a refrigerated vehicle reaching -18 degrees, and the exact volume and weight stay within half a unit of its limits |
| FleetTheorems.SelectableVehicle | backend/src/common/utils/fleet-compatibility.util.ts:51-151 | a vehicle evaluated as selectable carries the cargo and is on no order under way |
| OrderAdmission.SelectableDriver | backend/src/common/utils/fleet-compatibility.util.ts:156-201 | a driver is selectable if and only if the account is an active driver's, no licence of theirs expired before now, and no order under way is theirs |
| OrderAdmission.DriverIsEligible | backend/src/modules/logistics/logistics.service.ts:290-344 | counted over the order rows: a driver passes the checks if and only if fit to drive and on no other order under way |
| OrderAdmission.VehicleIsEligible | backend/src/modules/logistics/logistics.service.ts:235-290 | a vehicle passes them if and only if it is AVAILABLE, on no other order under way, and carries the cargo |
| OrderAdmission.DriversHandedAreFit | backend/src/modules/logistics/logistics.service.ts:908-1186 | every accepted creation, assignment or swap gives the order a driver who is fit to drive and idle |
| OrderAdmission.VehiclesHandedFit | backend/src/modules/logistics/logistics.service.ts:908-1186 | and a vehicle that was AVAILABLE and idle and carries the order as it then stands |
| OrderAdmission.AssignedFleetIsFit | backend/src/modules/logistics/logistics.service.ts:1092-1134 | an order that goes to DRIVER_ASSIGNED has a driver fit to drive then, kept ones included, and a vehicle that was AVAILABLE and now is IN_SERVICE |
| OrderAdmission.UpdateIsAccepted | backend/src/modules/logistics/logistics.service.ts:1058-1186 | an update is accepted if and only if move and role allow it, an assignment has vehicle and driver (a blank field asks for none), and whenever it assigns or names one of them both may take the order on: fit, AVAILABLE, idle but for it, able to carry it |
| OrderAdmission.NobodyElseHandsDrivers | backend/src/modules/logistics/logistics.service.ts:651-1627 | no other request, from sound tables, gives an order a driver it had not |
| OrderAdmission.LastListedCounts | backend/src/modules/logistics/logistics.service.ts:704-764 | the quantity claimed of a good is the last one listed for it |
| OrderAdmission.OrderIsAccepted | backend/src/modules/logistics/logistics.service.ts:651-951 | an order is accepted if and only if its goods are found once, the customer's own, drafts or waiting (inbound) or stored in a slot (outbound), in the named warehouse, with the packages free among active orders of its type, and its vehicle and driver, if given, pass the checks |
| OrderAdmission.OrderIsAsAsked | backend/src/modules/logistics/logistics.service.ts:908-1003 | the row it adds claims exactly what was asked for, for the customer, with the vehicle and driver given, DRIVER_ASSIGNED if there is a driver; the given vehicle is IN_SERVICE |
| OrderAdmission.OrderedGoodsWait | backend/src/modules/logistics/logistics.service.ts:982-1003 | an inbound order leaves none of its goods a draft and every other good as it was |
| OrderAdmission.WholeOrdersAddUp | backend/src/modules/logistics/logistics.service.ts:776-798 | an order of whole goods has exactly their registered volume and weight, and is cold if and only if one of them is |
| FleetTheorems.StepAndExclusive | backend/src/modules/logistics/logistics.service.ts:1093-1186 | from exclusive assignments any request keeps them exclusive, a status update if and only if a resumed order finds its vehicle and driver free |
| FleetTheorems.AssignmentsStayExclusive | backend/src/modules/logistics/logistics.service.ts:908-951 | over any run whose resumes are clear, no two orders in the five dispatch statuses share a vehicle or a driver, vehicle swaps mid-route included |
| Counterexamples.ResumingSharesADriver | backend/src/modules/logistics/utils/logistics-state-machine.util.ts:23-30 | from an orderly state with two deliveries and one driver, a run of three requests through DELAYED after which two orders under way share him |
| ServiceTheorems.StepAndService | backend/src/modules/logistics/logistics.service.ts:1187-1207 | from a state where every vehicle of an order under way is IN_SERVICE any request keeps it so, if and only if an update on the road swaps no vehicle and resumes only with one in use, and nobody else holds a vehicle that is freed |
| ServiceTheorems.SwapOnTheRoadBreaks | backend/src/modules/logistics/logistics.service.ts:1187-1198 | an accepted vehicle swap on the road always puts the order on a vehicle that is not IN_SERVICE |
| ServiceTheorems.ServiceIsExact | backend/src/modules/logistics/logistics.service.ts:1575-1595 | a run keeps that throughout if and only if every request in it meets the guard |
| Counterexamples.PodFreesAnothersVehicle | backend/src/modules/logistics/logistics.service.ts:1575-1595 | from an orderly state, a proof of delivery for a cancelled order frees the vehicle another order is on the road with |
| InboundTheorems.StepAndSettled | backend/src/modules/goods/goods.service.ts:742-772 | any request leaves no received PICKUP order waiting with all its goods stored, a status update if and only if it does not mark such an order DELIVERED |
| InboundTheorems.LastPutAwayConfirms | backend/src/modules/goods/goods.service.ts:742-772 | over any run under that guard the last put-away, in any order and with goods shared between orders, confirms the order |
| Counterexamples.DeliveredByStatusUpdate | backend/src/modules/logistics/utils/logistics-state-machine.util.ts:38-79 | from an orderly state, an Admin's plain status update that leaves such an order |
| OrderAdmission.ReceivingIsAccepted | backend/src/modules/logistics/logistics.service.ts:1397-1459 | receiving is accepted if and only if an Admin receives an inbound order at its destination, with no cancelled good, and received, damaged and missing packages add up to exactly the packages it carries |
| OrderAdmission.ReceivedGoodsAreInspected | backend/src/modules/logistics/logistics.service.ts:1461-1490 | then exactly its goods are INSPECTING, the order is DELIVERED and its vehicle AVAILABLE |
| TransitTheorems.GoodsFollowTheirOrder | backend/src/modules/logistics/logistics.service.ts:1209-1280 | an accepted update of an inbound order to DRIVER_ASSIGNED or EN_ROUTE_PICKUP makes exactly its drafts PENDING_PICKUP, to PICKED_UP or IN_TRANSIT exactly its drafts and waiting goods IN_TRANSIT_INBOUND, to CANCELLED exactly its waiting goods and those in transit drafts, and leaves every other good as it was |
| TransitTheorems.OutboundLeavesGoods | backend/src/modules/logistics/logistics.service.ts:1209-1210 | an update of an outbound order moves no goods |
| TransitTheorems.StepAndLoad | backend/src/modules/logistics/logistics.service.ts:1228-1237 | from a state where no picked-up inbound order carries a good still waiting for pickup, any request keeps it so if and only if it neither sets goods on a truck back to waiting nor cancels another order that shares goods in transit |
| TransitTheorems.LoadIsExact | backend/src/modules/logistics/logistics.service.ts:1228-1280 | a run keeps it throughout if and only if every request in it meets that guard |
| Counterexamples.CalledBackFromTheTruck | backend/src/modules/goods/utils/goods-state-machine.util.ts:14-17 | from an orderly state a customer sets a good on the truck back to PENDING_PICKUP |
| Lifecycles.OrdersMoveByOneStage | backend/src/modules/logistics/utils/logistics-state-machine.util.ts:7-33 | an order goes one stage on, gives up its assignment, is delayed on the road and resumes at any stage of it, or is cancelled before its goods are picked up or when delayed, and nothing else |
| Lifecycles.PlainUpdateIsAccepted | backend/src/modules/logistics/utils/logistics-state-machine.util.ts:38-79 | an update without vehicle or driver, other than an assignment, is accepted if and only if the move exists and the actor is an Admin, the customer confirming or cancelling a delivery of theirs, or a driver along the road |
| Lifecycles.HoldingStages | backend/src/modules/logistics/logistics.service.ts:826-842 | an order holds its fleet from assignment to arrival and its packages until it is over |
| BillingTheorems.StepAndPayments | backend/src/modules/billing/billing.service.ts:467-572 | any request keeps PENDING_PAYMENT meaning exactly one payment under review of the stored total, and stored total the subtotal plus penalty; PAID keeps meaning exactly one verified payment of that total if and only if the verdict applies |
| BillingTheorems.ReviewsAlongRuns | backend/src/modules/billing/billing.service.ts:355-419 | the first half of that over every run, without a guard |
| BillingTheorems.PaidMeansVerifiedOnce | backend/src/modules/billing/billing.service.ts:492-526 | over any run whose verdicts apply, PAID means exactly one verified payment of the stored total |
| BillingTheorems.StepAndPaid | backend/src/modules/billing/billing.service.ts:467-475 | one request leaves a PAID invoice and its payments as they are, but for the warehouse of the rental, if and only if it is not an accepted rejection of that invoice |
| BillingTheorems.PaidIsFinal | backend/src/modules/billing/billing.service.ts:344-353 | over any run that does not delete the customer, a PAID invoice stays so with the same bill throughout if and only if no Admin rejects it |
| Counterexamples.RejectionReopens | backend/src/modules/billing/billing.service.ts:531-572 | an Admin's rejection of any PAID invoice reopens it and leaves its verified payment as it is |
| Submissions.StepAndOrder | backend/src/modules/billing/billing.service.ts:355-419 | every step of interleaved payments and verdicts keeps both meanings, a commit if and only if it still applies to the invoice it finds |
| Submissions.SubmissionsAreExact | backend/src/modules/billing/billing.service.ts:326-419 | in every interleaving of payments and verdicts, cut between their reads and their transaction, with all other requests, PENDING_PAYMENT and PAID keep their meaning throughout if and only if every commit still applies |
| Submissions.JudgedAtOnce | backend/src/modules/billing/billing.service.ts:476-572 | a verdict whose transaction follows its reads at once is the atomic request |
| Submissions.SubmittedTwice | backend/src/modules/billing/billing.service.ts:355-402 | two submissions that pass their checks together leave two payments under review |
| BillingTheorems.ResolvedCounts | backend/src/modules/billing/billing.service.ts:484-515 | settling moves one payment from under review to its verdict and changes no other count |
| Counterexamples.PaidWithoutPayment | backend/src/modules/billing/billing.service.ts:492-526 | from an orderly state, verifying an invoice nobody paid makes it PAID with no verified payment |
| BillingTheorems.FilterAgrees | backend/src/modules/billing/billing.service.ts:175-187 | the status filter and the computed status agree on every query if and only if a stored OVERDUE is past due and PENDING_VERIFICATION is not stored |
| BillingTheorems.FilterAgreesAlongRuns | backend/src/modules/billing/billing.service.ts:175-187 | they agree for every invoice and query after any run under a clock that never goes back |
| BillingTheorems.PenaltyIsAWeeklyStep | backend/src/modules/billing/billing.service.ts:121-145 | after any run an unpaid rental owes its subtotal and exactly a twentieth of it for each week begun past the due date |
| BillingTheorems.ChargeIsMonotone | backend/src/modules/billing/billing.service.ts:70-146 | the amount due never falls as time passes |
| TenancyAdmission.PaymentIsAccepted | backend/src/modules/billing/billing.service.ts:321-384 | a payment is accepted if and only if the customer or another role but not another customer pays an invoice that is neither paid, cancelled nor under review exactly its subtotal and, once due, a twentieth of it for each week begun |
| TenancyAdmission.PaymentIsRecorded | backend/src/modules/billing/billing.service.ts:386-419 | it becomes the newest payment, under review, and the invoice waits for the verdict with the amount paid as its total |
| TenancyAdmission.VerdictIsAccepted | backend/src/modules/billing/billing.service.ts:467-572 | a verdict is accepted if and only if it is an Admin's on a known invoice; it makes it PAID, or OVERDUE once due and UNPAID before, and leaves its figures |
| TenancyAdmission.VerdictSettlesTheNewest | backend/src/modules/billing/billing.service.ts:484-560 | it settles exactly the newest payment under review |
| BillingTheorems.GrandTotalIsWhole | backend/src/modules/warehouse/warehouse.service.ts:672-680 | a rental's subtotal is a whole number of IDR, at least one month's minimum |
| Pricing.NestedCeilings | backend/src/modules/billing/billing.service.ts:121-124 | the week ceiling of the day ceiling is one ceiling of the delay over seven days |
| Pricing.PenaltyIsExact | backend/src/common/utils/calculation.util.ts:85-94 | for a subtotal in whole IDR rounding is the identity: penalty = subtotal / 20 for each week |
| Pricing.OwedMonotone | backend/src/modules/billing/billing.service.ts:121-133 | what is owed is at least the subtotal and grows with the delay |
| Pricing.MonthlyFee | backend/src/common/utils/calculation.util.ts:69-79 | the fee is at least the minimum; above it, within half an IDR of volume times rate, halves upward |
| TenancyAdmission.CubicMetresCostTheRate | backend/src/common/constants/pricing.constants.ts:7-11 | whole cubic metres cost 50 000 IDR a month standard, 75 000 heavy-duty, 150 000 cold |
| TenancyAdmission.VolumesCostInProportion | backend/src/common/utils/calculation.util.ts:69-79 | any volume costs the nearest IDR in proportion to those rates, and 50 000 at least, which only volumes worth no more cost |
| Pricing.TotalVolume | backend/src/common/utils/calculation.util.ts:35-45 | rounding the total of a batch to four decimals changes nothing |
| Quantities.ToFixed | backend/src/common/utils/calculation.util.ts:28-29 | the result is the nearest integer, ties away from zero, of either sign |
| RentalTheorems.ShownIsEnforced | backend/src/modules/warehouse/warehouse.service.ts:548-595 | the stored, receiving and waiting volumes (and weights) shown to a customer add up to the occupied figure registration uses, for every list of goods |
| RentalTheorems.RegistrationIsShown | backend/src/modules/warehouse/warehouse.service.ts:548-595 | an accepted registration adds its volume to what is shown waiting and to nothing else |
| RentalTheorems.StatusChangeIsShown | backend/src/modules/warehouse/warehouse.service.ts:548-595 | an accepted status change takes the volume out of the figure of the old status and adds it to that of the new one: put-aways move it from receiving to stored, deliveries take it away |
| RentalTheorems.AvailabilityDecides | backend/src/modules/goods/goods.service.ts:277-305 | a request passes the volume check if and only if it is within the shown availability plus the tolerance, exactly while no more is occupied than rented or outside a corner the lemma names |
| Counterexamples.ShownLetsOneMore | backend/src/modules/goods/goods.service.ts:296-305 | with two stored crates and one unit less than their volume rented, one unit more passes by the shown availability and not by the check |
| RentalTheorems.StepAndBound | backend/src/modules/goods/goods.service.ts:277-312 | any request keeps a customer's active goods within the allotted volume + 0.0001 m3 and 100 kg per m3 + 0.01 kg if and only if returning goods, the goods there at a first rental, or at a change of warehouse those that move to the target and those that stay at the source, fit |
| RentalTheorems.ChangeAndBound | backend/src/modules/warehouse/warehouse.service.ts:869-950 | a change of the rented warehouse keeps both warehouses within bounds if and only if what moves fits the joint rental, and what stays fits the legacy allotment |
| RentalTheorems.RentedSpaceIsNotOverfilled | backend/src/modules/goods/goods.service.ts:277-312 | over any run that holds throughout if and only if every request meets its guard: the tolerance does not add up |
| GoodsAdmission.RegistrationIsAccepted | backend/src/modules/goods/goods.service.ts:79-312 | a registration is accepted if and only if account, facility and rental fit: the newest rental there (or with none the facility) is cold exactly if the goods are, some rental still runs unless no volume is rented, a customer without rented volume has goods there, and volume and weight stay within the rented m3 and 100 kg for each, plus 0.0001 m3 and 0.01 kg |
| GoodsAdmission.RegistrationAddsItsGoods | backend/src/modules/goods/goods.service.ts:314-340 | it adds exactly one row of the requested goods, PENDING_PICKUP or DRAFT as asked, cold if labelled or cold food, measuring its dimensions to within half a unit for each package |
| GoodsAdmission.OnlyRegistrationAdds | backend/src/modules/goods/goods.service.ts:79-340 | no other request adds a goods row |
| TenancyAdmission.DimensionsMakeVolume | backend/src/common/utils/calculation.util.ts:17-30 | the unit volume is the nearest 0.0001 m3 to the product of the dimensions; a metre each way is one cubic metre |
| TenancyAdmission.ChangeIsAccepted | backend/src/modules/warehouse/warehouse.service.ts:772-850 | a change of the rented warehouse is accepted if and only if both facilities are known and different, the target active, something is rented or held at the source, and none of the customer's goods there is INSPECTING, STORED or later |
| TenancyAdmission.ChangeLeavesNothingWaiting | backend/src/modules/warehouse/warehouse.service.ts:852-950 | it leaves the customer no rental at the source and no good but ones on their way or cancelled, and moves nothing of anyone else |
| TenancyAdmission.RentingIsAccepted | backend/src/modules/warehouse/warehouse.service.ts:640-660 | renting is accepted from anyone but a driver for a known facility |
| TenancyAdmission.RentingIssuesItsInvoice | backend/src/modules/warehouse/warehouse.service.ts:660-715 | it issues one unpaid invoice of all its months, due in fourteen days, without touching another; whole cubic metres cost 50 000, 75 000 or 150 000 IDR each and month by zone |
| Registrations.NoInterleavingOverfills | backend/src/modules/goods/goods.service.ts:152-340 | in every interleaving of registrations that lock the customer's row, check and insert, with other requests in between, active goods in a rented warehouse stay within rented volume + 0.0001 m3 and 100 kg per m3 + 0.01 kg |
| Registrations.NoReachableStateOverfills | backend/src/modules/goods/goods.service.ts:152-340 | the same from any state reached from the opening under the rental guard in which the customer rents |
| Registrations.InsertsDecide | backend/src/modules/goods/goods.service.ts:277-340 | in every interleaving of registrations with any requests at all the bound holds throughout if and only if every insert still passes its check and every other request meets its guard |
| Registrations.StepKeepsSerialised | backend/src/modules/goods/goods.service.ts:152-154 | every step keeps the row lock with whoever is past it, and the check of whoever passed it true of the committed tables |
| Counterexamples.ReturnOverfills | backend/src/modules/logistics/logistics.service.ts:1483-1490 | from an orderly state, receiving an order whose good was delivered already overfills a full rental |
| Counterexamples.FirstRentalOverfills | backend/src/modules/warehouse/warehouse.service.ts:640-715 | from an orderly state within the legacy allotment, a first rental of less than what is stored overfills it |
| Undoing.TransferBackRestores | backend/src/modules/goods/goods.service.ts:889-905 | from up-to-date caches, transferring goods to another slot and back restores every table, slot statuses and cached figures included |
| Undoing.TransferBackIsAccepted | backend/src/modules/goods/goods.service.ts:784-905 | after an accepted transfer the request back is accepted, and then restores every table, if and only if the old slot would take the goods in the state before |
| Undoing.CancelUndoesCreate | backend/src/modules/logistics/logistics.service.ts:1253-1262 | creating an order and cancelling it leaves every reservation as it was; the goods are as before if and only if it was a delivery or none of them was PENDING_PICKUP already |
| Undoing.CancelReleases | backend/src/modules/logistics/logistics.service.ts:842-862 | cancelling gives back exactly the packages the order had claimed |
| Undoing.DeliveryFreesVehicle | backend/src/modules/logistics/logistics.service.ts:1573-1595 | delivering or receiving an order under way makes its vehicle selectable for the same cargo again |
| Undoing.NothingGoneHoldsASlot | backend/src/modules/goods/goods.service.ts:635-656 | over any run, delivered and cancelled goods hold no slot |
| Isolation.CustomersTouchTheirOwn | backend/src/modules/logistics/logistics.service.ts:704-710 | whatever a customer requests, only goods, orders and invoices of that customer change, appear or go |
| Isolation.OnlyPutAwayStores | backend/src/modules/goods/goods.service.ts:536-543 | goods come onto a rack only by an Admin's put-away from INSPECTING, although the status table also lists PENDING_DELIVERY |
| TenancyAdmission.DeletionIsAccepted | backend/src/modules/users/users.service.ts:334-360 | deleting is accepted if and only if an Admin deletes a known account other than their own |
| TenancyAdmission.DeletionLeavesNothing | backend/src/modules/users/users.service.ts:360-440 | it leaves no goods or invoices of the account and everybody else's as they were |
| TenancyAdmission.DeletionLeavesNoOrder | backend/src/modules/users/users.service.ts:360-440 | nor orders: other orders lose the deleted goods, and the account as their driver, and nothing else |
| TokenTheorems.QuietReloadsAreExact | frontend/src/lib/api-client.ts:121-131 | over any interleaving of the tab, its reloads and the server, the protocol is in order throughout if and only if no reload comes after the stored token was sent and before its successor is stored |
| TokenTheorems.ReloadDecides | frontend/src/lib/api-client.ts:285-299 | after a reload, no token is ever sent twice short of another reload if and only if the stored token had not been sent |
| TokenTheorems.EachTokenIsSentOnce | frontend/src/lib/api-client.ts:276-342 | in every interleaving with quiet reloads each refresh token is sent at most once, and a stored token is unsent unless a refresh is under way |
| TokenTheorems.EachCallRunsOnce | frontend/src/lib/api-client.ts:307-359 | in every interleaving each waiting call runs at most once, and never while it waits; on one page those that ran and then those that wait are all that ever waited, in their order, and each ran with tokens a refresh had stored |
| TokenTheorems.QueueMoves | frontend/src/lib/api-client.ts:124-131 | waiting calls run only in the step that stores new tokens, all of them; no other step loses or reorders any |
| TokenTheorems.NoRefreshSpendsAnothers | backend/src/modules/auth/auth.service.ts:172-198 | in every interleaving with quiet reloads rotation exchanges every token once, and at the lookup of a refresh no rotation has spent its token, so it is refused only when expired or revoked by a sign-out |
| TokenTheorems.StepAndOrderly | frontend/src/lib/api-client.ts:285-341 | every step of the tab, the network and the server keeps the invariant behind those, a reload if and only if it is quiet |
| Rotation.CallAndOnce | backend/src/modules/auth/auth.service.ts:175-196 | whoever sends what, every call keeps tokens exchanged once, an accepted lookup if and only if no other request with the token is between its lookup and its revocation |
| Rotation.RotationIsOnceExactly | backend/src/modules/auth/auth.service.ts:172-216 | over any interleaving of refresh requests tokens are exchanged once throughout if and only if every accepted lookup is alone |
| Rotation.NotAloneIsAnsweredTwice | backend/src/modules/auth/auth.service.ts:175-216 | a lookup that is not alone can always end with both requests answered with new tokens |
| Passwords.CallAndOrder | backend/src/modules/auth/auth.service.ts:349-366 | every call keeps at most one usable reset token for each user and each token used up once, an insertion if and only if no unused token of the user is left, a commit if and only if its token is still unused |
| Passwords.FreshIsExact | backend/src/modules/auth/auth.service.ts:333-432 | over any interleaving of requests cut at their calls both hold throughout if and only if every insertion and commit is fresh |
| Passwords.TwoUsableTokens | backend/src/modules/auth/auth.service.ts:349-366 | two reset requests at once leave two usable tokens |
| Passwords.ConfirmedTwice | backend/src/modules/auth/auth.service.ts:396-432 | two confirmations of one token at once set both their passwords, one after the other |
| Passwords.NewPasswordEndsSessions | backend/src/modules/auth/auth.service.ts:302-315 | in every interleaving no session of the user outlives the revocation after a reset, a change or a sign-out everywhere without a new sign-in, if and only if at that moment no refresh of theirs is past its lookup and no sign-in past its check |
| Passwords.UsedUpIsFinal | backend/src/modules/auth/auth.service.ts:396-404 | in every interleaving a reset token that a new request superseded or a confirmation used up is never confirmed again, if and only if no other confirmation of it is past its lookup at that moment |
| Passwords.FramesBegan | backend/src/modules/auth/auth.service.ts:44-66 | in every interleaving, whatever is under way began with what it needs: a sign-in with the stored password of an active account, a change with the current password and a different one, a confirmation with an unused, unexpired reset token, a reset request for an account in good standing |
| Passwords.SessionsAreSignedIn | backend/src/modules/auth/auth.service.ts:67-76 | in every interleaving, a session no refresh issued belongs to a user whose stored password was presented |
| Passwords.PasswordsChangeSo | backend/src/modules/auth/auth.service.ts:301-306 | a password changes only to the one asked for, by a change that presented the current one or by a reset of that user's token |
| Passwords.ChangesTakeEffect | backend/src/modules/auth/auth.service.ts:301-432 | and these do set it, a reset using its token up |
| Passwords.SignOutEnds | backend/src/modules/auth/auth.service.ts:222-248 | a sign-out revokes exactly the session of the user it names, or all of them, and nothing else |
| Passwords.ResetsLastAnHour | backend/src/modules/auth/auth.service.ts:354-366 | a new reset token is usable for exactly an hour, unless the account is suspended |
| Notifications.RetentionIsBounded | backend/src/modules/notifications/notifications.service.ts:82-114 | from any count n an unthrottled notification leaves min(n + 1, 50), drops none newer than one it keeps, and touches nobody else's |
| Notifications.StoreStaysTidy | backend/src/modules/notifications/notifications.service.ts:59-114 | over any history from an empty table every recipient holds at most 50, and no two identical notifications are within 60 s |
| Notifications.AddedUnlessRepeated | backend/src/modules/notifications/notifications.service.ts:59-102 | a notification is added if and only if every stored one of the same recipient, category, title and message is older than 60 s; otherwise the table stays as it was |
| Notifications.NothingIsLost | backend/src/modules/notifications/notifications.service.ts:53-122 | over any history, a notification that was asked for is missing later only if one it repeats stood there within the minute, or it was dropped since: with its account, or among the oldest of at least fifty |
| Deliveries.EventAndTidiness | backend/src/modules/notifications/notifications.service.ts:59-114 | every database call of any number of tasks, to whichever recipients, keeps at most fifty each and identical ones a minute apart, an insertion if and only if there is room and no identical one near |
| Deliveries.InsertionsDecide | backend/src/modules/notifications/notifications.service.ts:53-122 | over any interleaving both hold throughout if and only if every insertion still fits |
| Deliveries.FiftyOne | backend/src/modules/notifications/notifications.service.ts:82-102 | two tasks that both count forty-nine leave fifty-one |
| Deliveries.TwinNotices | backend/src/modules/notifications/notifications.service.ts:59-102 | two identical notifications that both miss the other are both kept |
| Broadcasts.InterleavingIsSequential | backend/src/modules/notifications/notifications.service.ts:127-152 | every interleaving of the recipients' tasks ends in the very tables of running them one after another, in any order of the recipients |
| Broadcasts.StepsCommute | backend/src/modules/notifications/notifications.service.ts:141-151 | calls of different recipients' tasks can be swapped |
| Broadcasts.OneTask | backend/src/modules/notifications/notifications.service.ts:53-122 | a task whose calls run without a pause is one notification created as specified |
| GoodsRequests.GoodsService.Create | backend/src/modules/goods/goods.service.ts:79-340 | accepts exactly when the specification does and then adds exactly the specified row: legacy allotment, storage type of the newest rental, latest end, both limits |
| GoodsRequests.GoodsService.ReadRentals | backend/src/modules/goods/goods.service.ts:175-217 | the loop over the rentals returns their total volume, the newest one's storage type and the latest end |
| GoodsRequests.GoodsService.RentedSpace | backend/src/modules/goods/goods.service.ts:219-275 | the allotment, storage type and expiry with their fallbacks, or a refusal for a customer without rental or goods here |
| GoodsRequests.GoodsService.RecalculateSlot | backend/src/modules/goods/goods.service.ts:397-434 | rewrites exactly one slot's cached volume and status from its stored goods |
| GoodsRequests.GoodsService.RecalculateWarehouse | backend/src/modules/goods/goods.service.ts:440-466 | rewrites exactly one warehouse's cached volume |
| GoodsRequests.GoodsService.ReconcileAll | backend/src/modules/goods/goods.service.ts:471-485 | slot after slot and warehouse after warehouse, the result is the full recomputation |
| GoodsRequests.GoodsService.Fits | backend/src/modules/goods/goods.service.ts:576-616 | compares volume and weight with the remainders the other stored rows leave, each as rounded |
| GoodsRequests.GoodsService.ConfirmInbound | backend/src/modules/goods/goods.service.ts:742-772 | confirms exactly the received PICKUP orders that carry the goods and are stored completely |
| GoodsRequests.GoodsService.PutAway | backend/src/modules/goods/goods.service.ts:529-634 | accepts exactly when a slot takes the goods, then stores them there, recalculates old and new slot and the warehouse, and confirms orders |
| GoodsRequests.GoodsService.UpdateStatus | backend/src/modules/goods/goods.service.ts:491-776 | answers and leaves every table as the specification of a status change says |
| GoodsRequests.GoodsService.TransferSlot | backend/src/modules/goods/goods.service.ts:784-905 | answers and leaves every table as the specification of a rack transfer says |
| LogisticsRequests.EachIsFound | backend/src/modules/logistics/logistics.service.ts:690-702 | as many rows as ids come back if and only if every id is found and none is repeated |
| LogisticsRequests.LogisticsService.ReadRequest | backend/src/modules/logistics/logistics.service.ts:676-764 | the quantities requested of each good, the last listed one for a repeated good, if every good is found |
| LogisticsRequests.LogisticsService.CheckReservations | backend/src/modules/logistics/logistics.service.ts:842-905 | accepts exactly when every good has the packages free among active orders of the same type |
| LogisticsRequests.LogisticsService.Totals | backend/src/modules/logistics/logistics.service.ts:776-794 | the loop returns the exact pro-rata volume and weight, and whether any good is cold |
| LogisticsRequests.LogisticsService.Assignable | backend/src/modules/logistics/logistics.service.ts:235-344 | accepts exactly when the named vehicle and driver exist and are selectable for the cargo |
| LogisticsRequests.LogisticsService.CreateOrder | backend/src/modules/logistics/logistics.service.ts:651-1003 | answers and leaves every table as the specification of an order creation says |
| LogisticsRequests.LogisticsService.UpdateOrder | backend/src/modules/logistics/logistics.service.ts:1058-1280 | answers and leaves every table as the specification of an order update says |
| LogisticsRequests.LogisticsService.ReceiveInbound | backend/src/modules/logistics/logistics.service.ts:1397-1490 | answers and leaves every table as the specification of receiving says |
| LogisticsRequests.LogisticsService.SubmitPod | backend/src/modules/logistics/logistics.service.ts:1546-1595 | answers and leaves every table as the specification of a proof of delivery says, in whatever status the order is |
| AccountRequests.UsersService.DeleteUser | backend/src/modules/users/users.service.ts:334-440 | answers, deletes the account's rows and recalculates the slots and warehouses that held its goods, as specified |
| AccountRequests.WarehouseService.CustomerWarehouse | backend/src/modules/warehouse/warehouse.service.ts:548-595 | the loops return the stored, receiving and waiting figures, the used ones registration uses and the availability that goes with them |
| AccountRequests.WarehouseService.RentSpace | backend/src/modules/warehouse/warehouse.service.ts:640-715 | answers and issues the specified invoice |
| AccountRequests.WarehouseService.ChangeWarehouse | backend/src/modules/warehouse/warehouse.service.ts:772-950 | answers and moves goods not yet picked up and rentals, as specified |
| BillingRequests.BillingService.FindAll | backend/src/modules/billing/billing.service.ts:154-187 | lists exactly the visible invoices the filter selects; of those whose dates are in order, exactly those whose computed status is the one asked for |
| BillingRequests.BillingService.FindUnderReview | backend/src/modules/billing/billing.service.ts:484-486 | finds the newest payment under review, or that there is none |
| BillingRequests.BillingService.PayInvoice | backend/src/modules/billing/billing.service.ts:321-419 | answers and leaves the invoice and its payments as specified |
| BillingRequests.BillingService.VerifyPayment | backend/src/modules/billing/billing.service.ts:467-572 | answers and settles the newest payment under review and the invoice as specified |
| AuthRequests.AuthService.Logout | backend/src/modules/auth/auth.service.ts:222-248 | revokes exactly the named session of the user, or all of them |
| AuthRequests.AuthService.LookupRefresh | backend/src/modules/auth/auth.service.ts:157-189 | up to the revocation: accepts exactly a live, unrevoked token |
| AuthRequests.AuthService.SpendRefresh | backend/src/modules/auth/auth.service.ts:191-195 | revokes exactly the row of the token |
| AuthRequests.AuthService.ReissueRefresh | backend/src/modules/auth/auth.service.ts:197-217 | issues a token to the same user if the account is in good standing, else refuses with the old one spent |
| AuthRequests.AuthService.ChangeStatus | backend/src/modules/users/users.service.ts:273-316 | sets exactly the status of a known account |
| AuthRequests.AuthService.CheckLogin | backend/src/modules/auth/auth.service.ts:44-66 | accepts exactly an active account with its password, and writes nothing |
| AuthRequests.AuthService.SaveSession | backend/src/modules/auth/auth.service.ts:68-76 | inserts exactly the new session |
| AuthRequests.AuthService.CheckPassword | backend/src/modules/auth/auth.service.ts:279-299 | accepts exactly the current password and a different new one, and writes nothing |
| AuthRequests.AuthService.WritePassword | backend/src/modules/auth/auth.service.ts:301-306 | sets exactly the password |
| AuthRequests.AuthService.RevokeAfterChange | backend/src/modules/auth/auth.service.ts:308-315 | revokes exactly the sessions of the user |
| AuthRequests.AuthService.Supersede | backend/src/modules/auth/auth.service.ts:333-352 | for an account in good standing marks exactly its unused reset tokens used |
| AuthRequests.AuthService.InsertReset | backend/src/modules/auth/auth.service.ts:354-366 | inserts exactly the new token, good for an hour |
| AuthRequests.AuthService.FindReset | backend/src/modules/auth/auth.service.ts:386-413 | accepts exactly a usable token and a new password, and writes nothing |
| AuthRequests.AuthService.CommitReset | backend/src/modules/auth/auth.service.ts:415-432 | sets the password, marks the token used and revokes the sessions of its user, without looking at the token again |
| ApiRequests.ApiClient.OnUnauthorized | frontend/src/lib/api-client.ts:285-289 | from a 401 to the next await: sign in, start a refresh with the stored token, or wait |
| ApiRequests.ApiClient.OnRefreshed | frontend/src/lib/api-client.ts:124-127 | runs every waiting call with the new tokens, in order, and forgets them |
| ApiRequests.ApiClient.OnTokens | frontend/src/lib/api-client.ts:307-312 | stores the tokens and ends the refresh before any waiting call runs |
| ApiRequests.ApiClient.OnFailure | frontend/src/lib/api-client.ts:322-341 | clears the tokens and ends the refresh, and leaves the waiting calls |
| NotificationRequests.NotificationsService.FindOldest | backend/src/modules/notifications/notifications.service.ts:86-93 | returns as many of the recipient's rows as asked for, none newer than one left |
| NotificationRequests.NotificationsService.CreateNotification | backend/src/modules/notifications/notifications.service.ts:53-122 | drops a repetition of the last minute, else makes room and inserts, as specified |
| Tables.Database.Aggregate | backend/src/modules/goods/goods.service.ts:576-584 | the rows a filter selects, but for the excepted ones, summed one after another |

## Left out

- Demo limits of ten goods, orders, invoices and payments: dropped, so that the properties hold of any number of rows.
- Kinds of refusal: a request is accepted or refused. Several checks loop over rows in the order the database returns them, so which message comes first is not determined.
- Checks before a transaction are cut from it for status changes, transfers, payments, verdicts, refreshes, sign-ins and passwords, and the locked checks of order creation and registration from their inserts. Other checks, such as the goods of an order or a vehicle or driver conflict, which take no lock, are taken as part of their transaction.
- Audit rows, order messages, receipts, telemetry, analytics, seeds and the user interface: nothing the properties speak of depends on them.
- Notifications are written inside other transactions; here their table is a store of its own. Billing, rentals and telemetry insert some of them directly, past the limit of fifty, and those inserts are not part of the history in `Notifications.StoreStaysTidy`.
- Linking a driver to a vehicle outside an order and editing an account: they set a vehicle IN_SERVICE or an account's status, and no invariant of the shared tables can be lost by either.
- Parsing of invoice descriptions: a rental is a record of warehouse, zone, volume, months and issue date, one per invoice. An unlabelled rental and the cold default of a facility are one flag of the warehouse.
- BillingTheorems.GrandTotalIsWhole: months are whole, though the request accepts a fraction; a fee times a fraction need not be a whole IDR.
- AccountRequests.WarehouseService.RentSpace: the same, and a fraction in the description would be read back as its last digits.
- Weights are whole multiples of 0.01 kg, the scale of their column, already at registration.
- Rental volumes are whole multiples of 0.0001 m3, the scale of their column, already when the fee is computed.
- Generated numbers, barcodes and ids are parameters that are unused so far; clocks are parameters of the request; tokens are opaque fresh values and hashes are injective.
- Rentals issued at the very same instant and, in `Broadcasts`, ties among oldest rows: the first are read in descending order of id, the second in any order.
- Floating-point error and the 20-digit precision of decimals: arithmetic is exact.
- A browser with several tabs sharing its storage: the refresh protocol is modelled within one.
- Registrations.NoInterleavingOverfills: shows what the row lock gives when the customer's other requests only add rentals and bring nothing back, as `Registrations.Harmless` says; with any requests the exact condition is `Registrations.InsertsDecide`. No invoice is stored as CANCELLED, a status nothing sets.
- AccountRequests.UsersService.DeleteUser: covers goods, orders, invoices and the account; its sessions, notifications and audit rows are outside the shared tables.
- AccountRequests.WarehouseService.ChangeWarehouse: leaves out the destination address written to pending pickup orders, which no property reads.
- BillingRequests.BillingService.FindAll: leaves out the month filter, sorting and paging.
- Passwords.NewPasswordEndsSessions: accounts are not deleted here; a sign-in under way is one that has passed its password check.
- GoodsRequests.GoodsService.RecalculateWarehouse: a missing warehouse is skipped rather than failing the transaction; foreign keys exclude it.
