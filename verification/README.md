# AL Jadwal in Dafny: capacity, money and sessions

This project models the capacity engine of a booking marketplace (chalets, yachts, rooms,
activities sold by the hour or by the night) and the state machines around it: ending a booking
and giving points and money back, coupons, vendor payouts, refresh-token rotation and the email
outbox. `dafny verify dfyconfig.toml` checks everything.

The same shape recurs. Code that works step by step is a class or a method with loops, proved equal
to a specification function; the lemmas then say what that function means, over every input or every
run. The `Promises` and `Outcome` modules say it once more without any of those functions: statuses,
times, units and amounts are written out there, and counts are taken booking by booking.

| file | about |
|---|---|
| `Common.dfy` | sums, filters, stable sort, rounding |
| `Occupancy.dfy` | load at an instant, its maximum over a window, and the sort-and-sweep that finds it |
| `Capacity.dfy` | the verdict of `createBooking` on a window: which unit, or which refusal |
| `BookingTable.dfy` | which rows hold a seat, and when an instant is not oversold |
| `Backfill.dfy` | giving units to bookings taken before there were any |
| `PastInstants.dfy` | what a backfill does to instants that are over |
| `LateConfirms.dfy` | putting a row back that held no seat any more: when there is still room |
| `Recovery.dfy` | bringing back the deleted booking of a captured payment, and the re-check before it |
| `Reservations.dfy` | runs of the booking table |
| `Promises.dfy`, `BackfillOutcome.dfy`, `ViewOutcomes.dfy` | what bookings, backfills and views come to, in rows, units, times and fields alone |
| `Availability.dfy`, `Calendar.dfy` | the hourly, range and calendar views against the verdict |
| `Pricing.dfy` | coupon, points, fee and commission |
| `Cancellations.dfy`, `CancellationOutcomes.dfy` | customer, admin and cascade cancels, refund decisions, the points ledger; what each does |
| `Coupons.dfy` | the usage count of a coupon |
| `Payouts.dfy`, `PayoutOutcomes.dfy` | payout requests and the payments they lock; what each call does |
| `Sessions.dfy`, `SessionOutcomes.dfy` | refresh tokens, families, eviction; what presenting a token leads to |
| `Outbox.dfy` | concurrent drainers with compare-and-set retries |

Times are integer minutes (bookings) or milliseconds (sessions, outbox), days are day numbers, money is
integer cents, points are hundredths, percentages and QAR per point are exact reals with `Round` for
`Math.round` (and for `toFixed(2)`, on exact arithmetic). A serializable transaction is one atomic step.
Transactions at the default isolation are taken apart where a read inside or before them decides a later
write: the cancels' read of the booking, of its payment and of its coupon, the checks of the payout calls.
Otherwise they are one step, too. In the token and outbox code every single statement is a step. `now`,
the random jitter, the gateway's captures and the outcome of sending a mail are parameters.

## Where the code and what it promises differ

- A capture confirms its booking without looking at `reservedUntil` (`payment.service.ts:1131-1185`). When
  the reservation ran out before, its place may be sold again, and the late confirm oversells it:
  `Reservations.LatePaymentOverbooks` is such a run from an empty table, for every activity and stay, safe
  exactly if both parties fit side by side. An instant stays safe over a run exactly when every late
  confirm (and every booking brought back) still finds room at it and no backfill clashes with the past
  (`Reservations.RunSafeExactly`, `LateConfirms.PutBackIsSafeExactly`).
- The re-check before a deleted booking comes back says that it mirrors `createBooking` exactly
  (`payment.service.ts:796-804`). For a booking made under the present use of units it asks for room at
  every instant, or for a whole unit with no orphan about (`Recovery.MatchedRecheckExactly`). A booking from
  before units were switched on is counted against the pool, one from before they were switched off
  against its old unit only: a passed re-check keeps every table safe exactly under the condition of
  `Recovery.RecoveryIsSafeExactly`.
- A backfill ignores stays that are over. Pools and shared units are never harmed by that. With whole units it
  can put a guest still in house into the unit a departed guest had at the same instant: a safe instant
  stays safe exactly when no booking that is over and one being placed are both present then in one unit
  (`PastInstants.BackfillHarmsExactlyClashes`), in particular whenever nobody who is over and had a unit
  overlaps somebody waiting. `Reservations.BackfillRewritesThePast` is a table where it happens. An
  activity that starts empty under one configuration never gets there: it is overbooked exactly by late
  confirms (`Reservations.NewActivityOverbookedExactly`).
- With units on and `unitCount` 0, the comment in `unit-config.ts:28-30` says bookings still succeed. The
  code starts from a limit of 0 and refuses everybody, while the hourly view shows the pool
  (`Availability.UnitlessConfigurationDisagrees`). `unit-config.ts` rejects such a configuration, and the
  other view lemmas assume it does.
- `create-booking.dto.ts:70` asks for a multiple of the slot length; the code takes any whole number of
  hours from the slot length up. The model follows the code.
- `computeSlots` starts at the opening time whatever its minutes, `createBooking` only takes :00 and :30:
  the two agree exactly under the condition of `Availability.SlotsAreTheAcceptedOnes`.
- The calendar's nightly figures decide every DAILY stay without units the way `createBooking` does exactly
  when check-out is not after check-in, or the activity is uncapped or has nothing to sell
  (`Calendar.CalendarAgreesExactly`). With a later check-out they are wrong both ways: the last night of
  a month shows every place although a stay arriving the next day leaves none
  (`Calendar.LastNightMissesNextArrival`), and the sum can hide a place that is free
  (`Calendar.LateCheckOutDiffers`). With whole units the last night misses next day's arrivals in the same
  way; single nights are decided right exactly when check-out is not after check-in or there is nothing to
  rent (`Calendar.WholeUnitNightsDecideExactly`).
- The hard delete of an unpaid booking has no compare-and-set. It does no lasting harm exactly when, at the
  moment it commits, no gateway session is open for the booking, nothing was captured and no points were
  given back (`Cancellations.DropIsSafeForGoodExactly`). Between its read and its transaction an admin
  cancel makes the points come back twice, a capture makes a paid row disappear, and a checkout leaves a
  session whose capture finds no booking and no payment.
- The same delete gives a coupon use back whatever happened since its read. The count stays true exactly when
  the booking still carries the code or no use is left (`Coupons.EndKeepsCountExactly`); otherwise any
  limit can be exceeded by one (`Coupons.StaleDeleteOversells`).
- Every cancel reads the coupon before it gives the use back. The status stays right exactly when a coupon
  closed by its cap was read so (`Coupons.EndKeepsStatusExactly`); with the last use booked in between, a
  coupon with a use left stays EXPIRED before its last day, whatever its limit above 1
  (`Coupons.StaleReadClosesCoupon`).
- Cancelling after `validTo` leaves a coupon EXPIRED below its cap (`Coupons.ExpiredBelowCap`), and the
  comment that a coupon at its cap is permanently closed (`bookings.service.ts:1722-1724`) is not what
  `refundCouponUsage` does: `Coupons.BookThenCancel` says when a cancel restores count and status.
- `schema.prisma:862-867` and `admin.service.ts:2795-2797` promise that a payment locked by an APPROVED or
  COMPLETED request lands in no other one. Filing looks, approval does not:
  `Payouts.ApprovalReclaimsExactly` says exactly when the promise is kept, `Payouts.PaymentReclaimed`
  reaches a state in which it is not.
- Reject, approve, revert, finish, mark-paid and mark-unpaid check and write in separate statements outside
  serializable isolation. `Payouts.LateWriteKeepsSoundExactly` says, for each, exactly when a late write keeps
  requests and payments in agreement; a rejection does not even compare-and-set the status.
- A payment PAID under a COMPLETED request stays so over whole calls, but a late reversal reopens the request
  (`Payouts.LateReversalUnsettles`) and a late mark-unpaid takes the payment back.
  `Payouts.LateWriteKeepsSettledExactly` says which late writes leave such payments alone.
- Completing re-counts its payments inside its transaction so that no request is closed over missing money,
  but a refund can still come between count and write (`PayoutOutcomes.LateCompletionOverRefund`). A step
  completes requests over captured and unpaid payments only exactly when the completion it commits still
  finds them so (`PayoutOutcomes.LateCompletionExactly`).
- An approval may lock payments worth more than it grants, and settles them for that: it pays what it locks
  exactly under the condition of `Payouts.ApprovalPaysWhatItLocksExactly`.
- Reuse detection deletes a family's rows, but a rotation already past its compare-and-set still inserts its
  token afterwards: `Sessions.RevocationIsFinalExactly`.
- A session's bound has to count the time a refresh may spend between its check and its insert
  (`Sessions.SessionsAreBounded`), and the bound is reached (`Sessions.SessionBoundIsReached`). The cap on
  active tokens holds over all runs exactly when no two calls of a user overlap between listing the active
  tokens and insert (`Sessions.CapKeptExactly`); with `most` of them it is exceeded by up to `most` less one.

## Model

| member | source | states |
|---|---|---|
| Occupancy.SweepIsPeak | apps/api/src/bookings/bookings.service.ts:289-319 | for any bookings and window, and any time-sorted order of the clipped events with ends before starts, the running maximum is the largest number of guests present at an instant of the half-open window |
| Occupancy.MaxConcurrentInWindow | apps/api/src/bookings/bookings.service.ts:289-319 | the code's clip, sort and sweep returns that maximum |
| Occupancy.LoadFromEvents | apps/api/src/bookings/bookings.service.ts:297-304 | guests present at an instant are the sum of the clipped events up to it, so end-touching-start is not concurrent |
| Occupancy.PeakAtMost | apps/api/src/bookings/bookings.service.ts:289-319 | a bound on the peak is a bound on the load at every instant of the window, both ways |
| Capacity.CapacityTest | apps/api/src/bookings/bookings.service.ts:1448-1522 | the unit scan on the window's bookings and the final check decide as specified on all live bookings |
| Capacity.FindFreeUnits | apps/api/src/bookings/bookings.service.ts:1469-1486 | the scan lists exactly the units that fit, orphans charged to every shared unit |
| Capacity.FreeUnitsMembers | apps/api/src/bookings/bookings.service.ts:1469-1496 | the list holds exactly the fitting units, lowest first |
| Capacity.PerPersonVerdict | apps/api/src/bookings/bookings.service.ts:1479-1522 | seats in units: accepted iff some unit has room next to its guests and all orphans at every instant; it gets the lowest such unit |
| Capacity.PoolVerdict | apps/api/src/bookings/bookings.service.ts:1506-1522 | no units: accepted iff the places suffice at every instant of the stay, always when uncapped |
| Capacity.WholeUnitVerdict | apps/api/src/bookings/bookings.service.ts:1471-1522 | whole units: accepted iff the guests fit a unit and free units outnumber orphans; it gets the lowest free unit |
| Promises.RoomsAreRentedWhole | apps/api/src/bookings/bookings.service.ts:1459-1522 | units and DAILY, or priced per unit: accepted iff the party fits a unit and more units are held by nobody at any time of the stay than bookings without a unit overlap it; it gets the lowest such unit; which of the two refusals otherwise |
| Promises.SeatsAreSoldOneByOne | apps/api/src/bookings/bookings.service.ts:1459-1522 | HOURLY per person with units: accepted iff some unit has the seats at every instant beside its own guests and all without a unit; it gets the lowest; refused as full otherwise |
| Promises.PlacesAreCounted | apps/api/src/bookings/bookings.service.ts:1506-1522 | no units: accepted iff uncapped or the guests present at every instant leave the places |
| BookingTable.AcceptKeepsSafe | apps/api/src/bookings/bookings.service.ts:1448-1522 | inserting a booking on an accepted verdict keeps every safe instant safe, for pools, shared units and whole units with orphans |
| BookingTable.ShrinkKeepsSafe | apps/api/src/bookings/bookings.service.ts:450-460 | rows that stop holding a seat (cancelled, expired, deleted) never make an instant unsafe |
| Promises.LiveIsCounting | apps/api/src/bookings/bookings.service.ts:450-460 | who holds a seat: confirmed and completed bookings, and reservations whose window has not run out, nobody else |
| Promises.SafeMeansNothingSoldTwice | apps/api/src/bookings/bookings.service.ts:1448-1522 | a safe instant is one at which every unit held exists, no two parties have the same room and everybody without one still finds one; or no unit, or pool, has more guests than seats |
| Promises.NothingIsEverSoldTwice | apps/api/src/bookings/bookings.service.ts:1448-1522 | from an empty table, over every run with payments in time: at no instant is a place, seat or room sold twice among the bookings that count |
| Promises.BookingOutcome | apps/api/src/bookings/bookings.service.ts:1427-1522 | the row an accepted request adds: its unit, reserved until the window's end, or confirmed when nothing is due |
| Promises.SeatsMove | apps/api/src/bookings/bookings.service.ts:450-460 | cancelling or deleting frees exactly that seat, completing keeps it, a payment takes it, waiting frees exactly the reservations that run out |
| Promises.StatusMoves | apps/api/src/payment/payment.service.ts:1177-1185 | a payment confirms a pending row whatever its deadline; what completing, cancelling and deleting do to a row |
| Promises.RecoveryOutcome | apps/api/src/payment/payment.service.ts:1632-1722 | a deleted booking comes back confirmed, in the unit it was made with, iff it is not over and passes the re-check |
| LateConfirms.OneMoreIsSafeExactly | apps/api/src/payment/payment.service.ts:1131-1185 | at an instant a stay covers, one more stay keeps a safe table safe iff there is room: in the pool, in its unit (every unit for an orphan), or its unit empty and a unit left beside the orphans |
| LateConfirms.PutBackIsSafeExactly | apps/api/src/payment/payment.service.ts:1131-1185 | a row that held no seat and is confirmed keeps a safe instant safe iff its stay is elsewhere then or still has room |
| Recovery.RecoverySlotAvailable | apps/api/src/payment/payment.service.ts:805-845 | the re-check: nothing overlaps the named whole unit, or the peak leaves places in the unit or the pool |
| Recovery.MatchedRecheckExactly | apps/api/src/payment/payment.service.ts:805-845 | a booking made under the present use of units passes iff it has room at every instant of its stay, for whole units iff its unit is free and no orphan overlaps |
| Recovery.MatchedRecheckMeansRoom | apps/api/src/payment/payment.service.ts:805-845 | so one that passes, whole units included, has room at every instant of its stay |
| Recovery.RecoveryIsSafeExactly | apps/api/src/payment/payment.service.ts:796-845 | over all tables and stays a booking that passes comes back without overselling iff its use of units is today's or the pool cannot outgrow the units |
| Reservations.StepKeepsSafeExactly | apps/api/src/bookings/bookings.service.ts:1448-1522 | every action keeps a safe instant safe, past or future, except late confirms and returning bookings that find no room and backfills that clash with the past, and those never do |
| Reservations.StepKeepsSafe | apps/api/src/bookings/bookings.service.ts:1448-1522 | every action that puts no row back and assigns no units keeps every safe instant safe, past ones included |
| Reservations.RunSafeExactly | apps/api/src/bookings/bookings.service.ts:1448-1522 | over every run an instant, past or future, stays safe throughout iff every late confirm and every returning booking finds room and no backfill clashes |
| Reservations.NoOverbooking | apps/api/src/bookings/bookings.service.ts:1448-1522 | over every run of create, confirm (late ones included), complete, cancel, delete, recovery, expiry and backfill in which rows put back find room, no instant from now on is oversold |
| Reservations.NoOverbookingEver | apps/api/src/bookings/bookings.service.ts:1448-1522 | under the same condition every safe instant stays safe, past or future: for pools and shared units, and for whole units if the backfills meet nobody over and in a unit overlapping a waiting booking |
| Reservations.MatchedRecoveriesFit | apps/api/src/payment/payment.service.ts:1656-1683 | from a table made under one use of units every booking a run brings back finds its place free |
| Reservations.NewActivityOverbookedExactly | apps/api/src/payment/payment.service.ts:1131-1185 | an activity that starts empty, every run and instant: it is safe throughout iff every late confirm finds room |
| Reservations.NewActivityNeverOverbooked | apps/api/src/bookings/bookings.service.ts:1448-1522 | so with every payment in time it is never overbooked, backfills and returning bookings included |
| Reservations.LatePaymentOverbooks | apps/api/src/payment/payment.service.ts:1177-1185 | from an empty table, every activity, stay and party: reserved, run out, sold again, then paid; safe at the start of the stay iff two such parties fit |
| Reservations.RunsLeaveNoOrphans | apps/api/src/bookings/bookings.service.ts:1459-1504 | under one configuration with units no run of an orphan-free table makes a booking without a unit |
| Reservations.SwitchingUnitsOn | apps/api/src/bookings/assign-missing-units.ts:112-250 | switching units on with a successful backfill makes every later run whose rows put back find room free of overbooking, however many orphans there were |
| Reservations.BackfillRewritesThePast | apps/api/src/bookings/assign-missing-units.ts:112-116 | whole units: a table safe at every instant, and a backfill after which a past instant holds a unit twice |
| PastInstants.BackfillHarmsNoSharedInstant | apps/api/src/bookings/assign-missing-units.ts:112-250 | pools and shared units: a backfill keeps every safe instant safe, past or future |
| PastInstants.BackfillHarmsExactlyClashes | apps/api/src/bookings/assign-missing-units.ts:112-250 | whole units: a successful backfill keeps a safe instant safe iff no booking that is over and one it places are both present then in the same unit |
| PastInstants.ClearPastHarmsNothing | apps/api/src/bookings/assign-missing-units.ts:112-250 | so it harms no instant when nobody over and in a unit overlaps a waiting booking |
| Reservations.ReservationBook.CreateBooking | apps/api/src/bookings/bookings.service.ts:1427-1522 | inserts a reserved (or confirmed) row with the chosen unit exactly on an accepted verdict |
| Reservations.ReservationBook.ConfirmBooking | apps/api/src/payment/payment.service.ts:1177-1185 | a pending row becomes confirmed, its deadline not looked at, nothing else changes |
| Reservations.ReservationBook.RecoverBooking | apps/api/src/payment/payment.service.ts:1632-1722 | a deleted booking not over yet comes back confirmed in the unit it was made with, iff the re-check passes |
| Reservations.ReservationBook.AssignUnitsToAll | apps/api/src/bookings/assign-missing-units.ts:112-250 | the backfill on the table; nothing is written when it throws |
| Reservations.ReservationBook.CancelBooking | apps/api/src/admin/admin.service.ts:1414-1474 | the row stops holding its seat, nothing else changes |
| Reservations.ReservationBook.DeleteBooking | apps/api/src/bookings/bookings.service.ts:2684-2694 | the row disappears whatever its status, nothing else changes |
| Backfill.FirstFitIsLowest | apps/api/src/bookings/assign-missing-units.ts:178-194 | first fit finds the lowest unit that takes the stay, or none does |
| Backfill.PackKeepsUnitsSafe | apps/api/src/bookings/assign-missing-units.ts:175-208 | packing oversells no unit at an instant at which it was not oversold already |
| Backfill.PackAppends | apps/api/src/bookings/assign-missing-units.ts:204-208 | a complete packing appends every waiting stay, changed in nothing but its unit |
| Backfill.FailureMeansOverload | apps/api/src/bookings/assign-missing-units.ts:196-202 | whole units in start order: a stay left out arrives while every unit is held |
| Backfill.PackingIsOptimal | apps/api/src/bookings/assign-missing-units.ts:166-236 | whole units in start order: somebody is left out iff at some instant more stays are present than units exist |
| Backfill.BackfillRefusesExactlyOverload | apps/api/src/bookings/assign-missing-units.ts:112-236 | on the table, nobody placed yet: the backfill aborts iff some instant has more live bookings than units |
| BackfillOutcome.OutOfRangeIsRefused | apps/api/src/bookings/assign-missing-units.ts:142-161 | refused for a unit out of range iff somebody still to come or in house sits outside 1..unitCount; no refusal writes anything |
| BackfillOutcome.SomebodyUnplaceableIsRefused | apps/api/src/bookings/assign-missing-units.ts:166-236 | every table, rooms and shared units: taking the waiting by start, creation and id, each to the lowest unit usable beside those who sit and those placed before, if some find none the backfill refuses, names exactly those, at least one, and changes nothing |
| BackfillOutcome.EverybodyPlaceableIsPlaced | apps/api/src/bookings/assign-missing-units.ts:166-250 | if all find one, it assigns exactly these units, counts them, and changes nothing else |
| BackfillOutcome.EveryTableHasAFirstFit | apps/api/src/bookings/assign-missing-units.ts:166-209 | every table has such an order and such units, so one of the two always applies |
| Backfill.BackfillAssignsEveryone | apps/api/src/bookings/assign-missing-units.ts:112-250 | success: every live booking sits in a unit 1..unitCount, no existing assignment and nothing but units changes, a second run assigns nothing |
| Backfill.BackfillMakesSafe | apps/api/src/bookings/assign-missing-units.ts:112-250 | success: every instant from now on is safe, orphans included, if each unit on its own was |
| Backfill.FutureAfter | apps/api/src/bookings/assign-missing-units.ts:238-242 | reading the table back after the writes gives exactly the packed stays |
| Backfill.ScanUnits | apps/api/src/bookings/assign-missing-units.ts:176-194 | the inner loop is first fit |
| Backfill.ChooseUnits | apps/api/src/bookings/assign-missing-units.ts:166-209 | the outer loop is the packing; the ids collected per unit are exactly its choices |
| Backfill.WriteUnits | apps/api/src/bookings/assign-missing-units.ts:238-242 | one write per unit assigns exactly the chosen units and counts the rows written |
| Backfill.AssignMissingUnits | apps/api/src/bookings/assign-missing-units.ts:106-250 | skip, out-of-range refusal, unplaceable refusal (rows untouched) or all assigned with their count |
| Availability.ComputeSlots | apps/api/src/bookings/bookings.service.ts:258-269 | the loop lists the half-hourly starts whose slot ends by closing time, up to the cap |
| Availability.OfferedSlot | apps/api/src/bookings/bookings.service.ts:258-269 | a time is offered iff it is on the grid of the opening time and its slot fits the opening hours |
| Availability.SlotsAreTheAcceptedOnes | apps/api/src/bookings/bookings.service.ts:1221-1282 | offered slots are exactly the default-length slots createBooking takes, iff the activity opens on the half hour, has no length, or no slot fits |
| ViewOutcomes.ValidTimes | apps/api/src/bookings/bookings.service.ts:1221-1282 | an hourly time is taken iff it starts on the half hour, ends on one a whole number of hours later between the default length and 24 of them, all within the opening hours |
| Availability.ShowSlot | apps/api/src/bookings/bookings.service.ts:593-644 | the hourly slot as computed line by line, orphans retired |
| Availability.RetireUnits | apps/api/src/bookings/bookings.service.ts:629-635 | the retiring loop closes the first open lines, one per orphan |
| Availability.RetireCount | apps/api/src/bookings/bookings.service.ts:629-635 | it leaves free units minus orphans open, floored at zero, and opens none |
| Availability.HourlyViewAgrees | apps/api/src/bookings/bookings.service.ts:579-645 | for every slot offered, g guests are accepted iff the view shows a unit (or the pool) with at least g |
| Availability.UnitlessConfigurationDisagrees | apps/api/src/bookings/bookings.service.ts:593-641 | units on and none configured: everybody is refused, the view shows the pool; they agree iff the pool is short of g |
| Availability.ShowRange | apps/api/src/bookings/bookings.service.ts:718-775 | the range view for all units together, or for the pool |
| Availability.ShowRangeUnit | apps/api/src/bookings/bookings.service.ts:776-809 | the range view for one unit, or no such unit |
| Availability.RangeUnitIsExact | apps/api/src/bookings/bookings.service.ts:776-809 | one whole unit: g places are shown iff a unit holds g, this one is free over the stay and no orphan is there; such a stay is accepted |
| Availability.ShowRangeLines | apps/api/src/bookings/bookings.service.ts:733-775 | its unit lines, orphans retired from unbooked units |
| Availability.RangeViewIsExact | apps/api/src/bookings/bookings.service.ts:733-775 | whole units: lines shown free = free units minus orphans, floored at zero, positive iff createBooking finds one for any party a unit holds |
| Availability.RangeViewIsSafe | apps/api/src/bookings/bookings.service.ts:776-822 | no units: whatever the view shows free over a stay is accepted, locked or not |
| ViewOutcomes.RangeOfPlaces | apps/api/src/bookings/bookings.service.ts:776-822 | no units: exactly the places left when every booking overlapping the stay is counted, none when locked, no figure when uncapped |
| ViewOutcomes.RangeOfSharedUnits | apps/api/src/bookings/bookings.service.ts:733-809 | shared units: each line shows its places less its own guests and all guests without a unit who overlap, all units or one |
| ViewOutcomes.LockedRangeShowsNothing | apps/api/src/bookings/bookings.service.ts:733-809 | a locked range shows no unit free, all units or one |
| Calendar.CountUnits | apps/api/src/bookings/bookings.service.ts:969-985 | one pass counts named units once and every orphan |
| Calendar.ShowDay | apps/api/src/bookings/bookings.service.ts:944-1092 | the calendar day as computed, for all units or one, whole or shared, slots and locks included |
| Calendar.CountDay | apps/api/src/bookings/bookings.service.ts:964-1034 | its capacity, booked and available figures, orphans charged to every shared unit |
| Calendar.UnitNightIsExact | apps/api/src/bookings/bookings.service.ts:966-969 | one whole unit: shown free iff it is free that night and no orphan is in the house; such a night is accepted |
| Calendar.UnitDayIsExact | apps/api/src/bookings/bookings.service.ts:986-1003 | one shared unit: its figure is at least g iff it has room for g all day |
| Calendar.OrphanDayIsExact | apps/api/src/bookings/bookings.service.ts:1020-1034 | shared units on a day with orphans: the pooled figure is positive iff one guest would be accepted for the whole day |
| Calendar.HouseAddsUp | apps/api/src/bookings/bookings.service.ts:969-985 | units taken by name and free units make up the unit count |
| Calendar.AcceptedStayHasOpenNights | apps/api/src/bookings/bookings.service.ts:969-985 | whole units: every night of an accepted stay is open on the calendar |
| Calendar.WholeUnitNightIsExact | apps/api/src/bookings/bookings.service.ts:969-985 | whole units: a night's figure is free units minus orphans, floored at zero, so that night is accepted iff it is positive and shown fully booked iff it is zero; on the month's last day if check-out is not after check-in |
| Calendar.WholeUnitNightsDecideExactly | apps/api/src/bookings/bookings.service.ts:869-985 | whole units, all tables, months and nights with the last one: figures decide every single night iff check-out is not after check-in or there is nothing to rent |
| Calendar.LastNightMissesFullHouse | apps/api/src/bookings/bookings.service.ts:869-886 | check-out after check-in, every such activity: the last night shows every unit free and any party is refused |
| Calendar.CalendarDecidesStays | apps/api/src/bookings/bookings.service.ts:986-1006 | no units, check-out not after check-in: a stay is accepted iff every night shows enough places |
| Calendar.CalendarAgreesExactly | apps/api/src/bookings/bookings.service.ts:944-1006 | calendar and createBooking agree on all stays, months, parties and tables iff check-out is not after check-in, or there is no cap, or nothing to sell |
| Calendar.LastNightMissesNextArrival | apps/api/src/bookings/bookings.service.ts:869-886 | check-out after check-in, every such activity: the month's last night shows all places and a party of one is refused |
| Calendar.LateCheckOutDiffers | apps/api/src/bookings/bookings.service.ts:986-1006 | check-out after check-in: a stay is accepted on a night the calendar shows full |
| Calendar.FullyBookedMeansEverySlotFull | apps/api/src/bookings/bookings.service.ts:1040-1078 | hourly, whole units or none: fully booked iff the day has slots and the hourly view shows every one empty |
| ViewOutcomes.NightOfPlaces | apps/api/src/bookings/bookings.service.ts:986-1006 | no units: a night's figures count every booking of the month's query that overlaps it; fully booked iff nothing is left |
| ViewOutcomes.DayOfPlaces | apps/api/src/bookings/bookings.service.ts:986-1034 | hourly, places of the activity or of all its units while nobody is without a unit: the most guests present at any instant are booked, the rest is available |
| ViewOutcomes.RoomFigures | apps/api/src/bookings/bookings.service.ts:964-985 | rooms: one unit is booked iff some booking overlaps its day; of all units what is not booked is available |
| ViewOutcomes.SharedUnitFigures | apps/api/src/bookings/bookings.service.ts:986-1003 | one shared unit by the hour: the most guests present at any instant are booked, the rest of its seats available |
| ViewOutcomes.HourlyDayIsFull | apps/api/src/bookings/bookings.service.ts:1040-1078 | by the hour a day is fully booked iff it has slots and each is sold out: rooms named and bookings without one reach the unit count (one for one unit), or at some instant all seats are taken |
| ViewOutcomes.LockedDayShowsNothing | apps/api/src/bookings/bookings.service.ts:1079-1092 | a locked day has nothing available and is fully booked |
| Pricing.DiscountWithinTotal | apps/api/src/bookings/bookings.service.ts:1697-1704 | a valid coupon takes between nothing and the whole price |
| Pricing.RedeemIsFair | apps/api/src/bookings/bookings.service.ts:1862-1899 | never more points than asked; points and value match up to one rounding; the fee goes iff the points cover the price |
| Pricing.QuoteAddsUp | apps/api/src/bookings/bookings.service.ts:1785-1931 | cash + points discount = price after coupon + fee charged, no part negative, commission within the price, for every accepted request |
| Pricing.CheckoutKeepsTheFee | apps/api/src/bookings/bookings.service.ts:1883-1935 | whoever still pays cash pays the full fee; a booking is confirmed at once iff points cover it and no fee is left |
| Pricing.CommissionWithinPrice | apps/api/src/bookings/bookings.service.ts:1916-1919 | commission stays within the price for rates 0..100 |
| Pricing.CouponTakes | apps/api/src/bookings/bookings.service.ts:1697-1704 | a fixed coupon takes its amount up to the price, a percentage its rounded share, or its cap when that is less |
| Pricing.RequestsRefused | apps/api/src/bookings/bookings.service.ts:1862-1882 | a points request is refused iff it is below the minimum, or redemption is switched off |
| Pricing.PointsTaken | apps/api/src/bookings/bookings.service.ts:1883-1899 | points come off at their rounded worth; worth the price or more, just enough are taken and the fee is waived |
| Pricing.QuoteAmounts | apps/api/src/bookings/bookings.service.ts:1785-1935 | price after the coupon, rounded commission on it, points as above, and the rest to pay, confirmed iff that is nothing |
| Cancellations.CommitKeepsRight | apps/api/src/bookings/bookings.service.ts:2369-2650 | the three guarded customer cancels keep the books right however stale their read |
| Cancellations.DropKeepsRightExactly | apps/api/src/bookings/bookings.service.ts:2665-2710 | the hard delete keeps the books right iff, when it commits, no gateway session is open, nothing was captured and no points were given back |
| Cancellations.DropIsSafeForGoodExactly | apps/api/src/bookings/bookings.service.ts:2665-2710 | over every later run (captures included) the accounts stay settled after a stale delete iff that held when it committed |
| Cancellations.CancelCallKeepsRight | apps/api/src/bookings/bookings.service.ts:2312-2710 | run without interruption a customer cancel keeps the books right |
| Cancellations.AdminCancelKeepsRight | apps/api/src/admin/admin.service.ts:1414-1586 | so does the admin's cancel |
| Cancellations.CascadeKeepsRight | apps/api/src/admin/admin.service.ts:1108-1215 | so does the cascade, acting on an earlier read |
| Cancellations.ResolveKeepsRight | apps/api/src/admin/admin.service.ts:1222-1281 | so does resolving stranded refund requests |
| Cancellations.DecisionKeepsRight | apps/api/src/bookings/bookings.service.ts:2764-2854 | a refund decision credits exactly its amount's worth of points once, never above what was paid |
| Cancellations.CreateKeepsRight | apps/api/src/bookings/bookings.service.ts:1950-2084 | points are debited with the booking or nothing happens; balances match the ledger |
| Cancellations.CaptureKeepsRight | apps/api/src/payment/payment.service.ts:1131-1180 | a capture on an open session keeps the books right: it confirms a pending payment, and queues the full refund of one a cancel failed meanwhile |
| Cancellations.InterleavingsKeepBooksRight | apps/api/src/bookings/bookings.service.ts:2355-2710 | every interleaving of reads and transactions keeps the books right if every hard delete commits when it is safe |
| Cancellations.RunsKeepBooksRight | apps/api/src/bookings/bookings.service.ts:2355-2710 | every run of whole customer cancels, admin and cascade cancels, decisions and captures does, without condition |
| Cancellations.EndedBookingAccounts | apps/api/src/bookings/bookings.service.ts:2355-2854 | right books: redeemed points came back exactly once on ended bookings and not before; a REFUNDED payment was credited exactly once with the points its decided amount is worth, within what was paid, nobody else was; refund states only on CANCELLED bookings; no captured money without its booking |
| CancellationOutcomes.CancelIsRefusedExactly | apps/api/src/bookings/bookings.service.ts:2337-2352 | a customer cancel is refused iff the booking is cancelled, completed or has started |
| CancellationOutcomes.RefundFollowsTheTerms | apps/api/src/bookings/bookings.service.ts:2447-2480 | a paid booking queues the whole amount for free cancellation in time, the rounded clamped share for a partial refund in time, nothing when non-refundable or late; the points come back |
| CancellationOutcomes.EarlierNeverQueuesLess | apps/api/src/bookings/bookings.service.ts:2447-2480 | cancelling earlier never queues less |
| CancellationOutcomes.UnpaidCancels | apps/api/src/bookings/bookings.service.ts:2369-2710 | no cash paid: points-only is REFUNDED with 0, at the gateway is cancelled with its payment FAILED, otherwise the row goes; the points come back |
| CancellationOutcomes.AdminCancelOutcome | apps/api/src/admin/admin.service.ts:1414-1586 | full refund of a paid booking in points at the rate, pending payment FAILED, redeemed points back |
| CancellationOutcomes.CascadeOutcome | apps/api/src/admin/admin.service.ts:1108-1215 | the same per booking as the payment status read before says, only bookings still open |
| CancellationOutcomes.ResolveOutcome | apps/api/src/admin/admin.service.ts:1222-1281 | a stranded request is refunded in full in points |
| CancellationOutcomes.RejectionOutcome | apps/api/src/bookings/bookings.service.ts:2764-2854 | a rejection closes the request and credits nothing |
| CancellationOutcomes.ApprovalOutcome | apps/api/src/bookings/bookings.service.ts:2764-2854 | an approval is refused outside 0..paid, and otherwise credits its amount rounded to cents, in points at the rate |
| CancellationOutcomes.BookingOutcome | apps/api/src/bookings/bookings.service.ts:1950-2084 | points are taken or nothing happens; nothing due means confirmed and paid at once |
| CancellationOutcomes.CaptureOutcome | apps/api/src/payment/payment.service.ts:1131-1180 | an open session's money is taken once: a pending payment is confirmed, one failed meanwhile has its full refund queued, with the row gone nothing is left to confirm |
| Cancellations.BookThenCancelRestoresBalances | apps/api/src/bookings/bookings.service.ts:2312-2710 | booking with points and cancelling before paying restores every balance; an unpaid row is gone, a points-only one CANCELLED and REFUNDED |
| Cancellations.StaleDeleteReturnsPointsTwice | apps/api/src/bookings/bookings.service.ts:2684-2710 | for any customer, points and amount: an admin cancel before the stale delete breaks the books |
| Cancellations.StaleDeleteLosesCapture | apps/api/src/bookings/bookings.service.ts:2684-2710 | so does a capture before the stale delete |
| Cancellations.StaleDeleteOrphansSession | apps/api/src/bookings/bookings.service.ts:2550-2583 | a checkout before the stale delete leaves a session whose capture finds no booking |
| Cancellations.CancellationDesk.Refund | apps/api/src/common/services/loyalty.service.ts:60-85 | balance and ledger row move together |
| Cancellations.CancellationDesk.CommitCustomerCancel | apps/api/src/bookings/bookings.service.ts:2369-2710 | the transaction on the branch its read chose; aborted, it leaves everything as it was |
| Cancellations.CancellationDesk.CancelBooking | apps/api/src/bookings/bookings.service.ts:2312-2710 | the whole call keeps right books right |
| Cancellations.CancellationDesk.CancelByStaff | apps/api/src/admin/admin.service.ts:1414-1586 | the admin's cancel, full refund for a paid booking, points back |
| Cancellations.CancellationDesk.CascadeOne | apps/api/src/admin/admin.service.ts:1108-1215 | the cascade's transaction on the payment status read before |
| Cancellations.CancellationDesk.RecordRefundDecision | apps/api/src/bookings/bookings.service.ts:2764-2854 | one decision per queued refund, refused above what was paid |
| Coupons.EndKeepsCountExactly | apps/api/src/bookings/bookings.service.ts:64-78 | a cancel's transaction on whatever became of its booking keeps the count true iff the row is gone, still carries the code, or no use is left |
| Coupons.EndKeepsStatusExactly | apps/api/src/bookings/bookings.service.ts:71-103 | and the status right iff a coupon closed by its cap was read so |
| Coupons.StepKeepsSoundExactly | apps/api/src/bookings/bookings.service.ts:64-104 | each booking, nightly expiry and step of a cancel keeps count and status true to the live bookings, except transactions outside these two conditions, and those never do |
| Coupons.RunCountsExactly | apps/api/src/bookings/bookings.service.ts:1795-1821 | over every interleaving the count is true all along iff every cancel's transaction counts |
| Coupons.RunSoundExactly | apps/api/src/bookings/bookings.service.ts:64-104 | count and status are true all along iff besides every read still fits |
| Coupons.UninterruptedCancelKeepsSound | apps/api/src/bookings/bookings.service.ts:2671-2694 | a cancel or delete with nothing between its reads and its transaction keeps both right |
| Coupons.StaleDeleteOversells | apps/api/src/bookings/bookings.service.ts:2671-2694 | for every limit and validity: a run with a stale delete ends with one live carrier more than the limit |
| Coupons.StaleReadClosesCoupon | apps/api/src/bookings/bookings.service.ts:71-103 | for every limit above 1: a run in which a booking takes the last use between a cancel's read and its decrement leaves a coupon with a use left, still valid and EXPIRED |
| Coupons.CouponNeverOverused | apps/api/src/bookings/bookings.service.ts:1795-1821 | over all interleavings whose hard deletes count, usedCount is the number of live bookings carrying the code and within the limit; if the reads fit too, before validTo a coupon is EXPIRED iff at its cap |
| Coupons.BookThenCancel | apps/api/src/bookings/bookings.service.ts:64-104 | booking then cancelling restores count and status iff the use did not reach the cap or the cancel came before validTo |
| Coupons.ExpiredBelowCap | apps/api/src/bookings/bookings.service.ts:94-103 | a cancel after validTo leaves the coupon EXPIRED below its cap |
| Coupons.BookingOutcome | apps/api/src/bookings/bookings.service.ts:1795-1821 | a booking takes a use, and closes the coupon with the last, iff it is APPROVED, within validFrom..validTo and has one left |
| Coupons.CommitOutcome | apps/api/src/bookings/bookings.service.ts:64-104 | what a committing cancel does to booking, count and status, guarded or not, reopening only what was read EXPIRED at its limit before validTo |
| Coupons.CouponRow.Apply | apps/api/src/bookings/bookings.service.ts:1795-1821 | one guarded increment, EXPIRED on reaching the cap |
| Coupons.CouponRow.RefundCouponUsage | apps/api/src/bookings/bookings.service.ts:64-104 | one guarded decrement, APPROVED again only if the coupon was read closed by its cap and validTo has not come |
| Payouts.NeededIsShortest | apps/api/src/admin/admin.service.ts:2822-2835 | the greedy loop stops at the first prefix that reaches the amount |
| Payouts.ApprovalLocksShortestPrefix | apps/api/src/admin/admin.service.ts:2806-2860 | an approval locks exactly that prefix of the FIFO queue or all of it; the amount is the smaller of requested and locked, reduced iff the whole queue falls short |
| Payouts.ApprovalRefused | apps/api/src/admin/admin.service.ts:2837-2841 | it is refused iff nothing is asked for or the queue is empty |
| PayoutOutcomes.FilingOutcome | apps/api/src/vendor/vendor.service.ts:1409-1625 | a vendor files for all its captured, unpaid, ended payments no request holds, iff none of its requests is in flight and the sum is positive and meets the minimum |
| PayoutOutcomes.ApprovalOutcome | apps/api/src/admin/admin.service.ts:2806-2860 | an approval takes the shortest prefix of the oldest-first payable payments worth the amount, or all, grants the smaller of the two, and is refused iff it takes nothing |
| PayoutOutcomes.FinishOutcome | apps/api/src/admin/admin.service.ts:2890-2960 | finishing an APPROVED request completes it iff all it holds is captured and unpaid; otherwise it is PENDING again and holds nothing |
| PayoutOutcomes.CompletesOnlyOverOpenPayments | apps/api/src/admin/admin.service.ts:2916-2959 | no call turns a request COMPLETED but one that finds it APPROVED with all it holds captured and unpaid |
| PayoutOutcomes.CompletedWasOpen | apps/api/src/admin/admin.service.ts:2916-2959 | over every run, whatever is COMPLETED was so at the start or was completed over payments all captured and unpaid then |
| PayoutOutcomes.LateCompletionExactly | apps/api/src/admin/admin.service.ts:2916-2985 | with check and write apart: a step turns requests COMPLETED over captured and unpaid payments only, iff the completion it commits still finds them so |
| PayoutOutcomes.InterleavedCompletedWasOpen | apps/api/src/admin/admin.service.ts:2916-2985 | over every interleaving whose late writes and completions fit, whatever is COMPLETED was so at the start or was completed over such payments |
| PayoutOutcomes.LateCompletionOverRefund | apps/api/src/admin/admin.service.ts:2943-2985 | any APPROVED request whose payments were counted: a refund before the write, and it is COMPLETED over a refunded payment |
| PayoutOutcomes.RejectionOutcome | apps/api/src/admin/admin.service.ts:2988-3003 | only PENDING can be rejected, nothing else changes |
| PayoutOutcomes.ReversalOutcome | apps/api/src/admin/admin.service.ts:3047-3119 | which reversals are allowed, what a reversed request keeps, and both refusals |
| PayoutOutcomes.MarkPaidOutcome | apps/api/src/admin/admin.service.ts:2281-2460 | a batch naming a suspended vendor, a claimed or a too recent payment is refused; otherwise exactly its captured payments are PAID |
| PayoutOutcomes.MarkUnpaidOutcome | apps/api/src/admin/admin.service.ts:2562-2610 | only a captured PAID payment no APPROVED or COMPLETED request holds is taken back |
| Payouts.StepKeepsSound | apps/api/src/admin/admin.service.ts:2758-3119 | each whole filing, decision, reversal, marking, refund and deletion keeps requests and payments in agreement |
| Payouts.RunsKeepSound | apps/api/src/admin/admin.service.ts:2281-3119 | over every run of whole calls: PENDING and REJECTED lock nothing, APPROVED and COMPLETED a non-empty set worth at least the positive amount granted, nothing APPROVED is PAID, one request in flight per vendor |
| Payouts.LateWriteKeepsSoundExactly | apps/api/src/admin/admin.service.ts:2281-3119 | reject, approve, revert, finish, mark-paid and mark-unpaid with other calls between check and write: the write keeps the agreement iff it still fits |
| Payouts.InterleavingsKeepSound | apps/api/src/admin/admin.service.ts:2281-3119 | over every interleaving of whole calls, checks and writes that still fit, the agreement is kept |
| Payouts.AtOnceIsTheCall | apps/api/src/admin/admin.service.ts:2281-3119 | check and write back to back are the whole call |
| Payouts.ApprovalPaysWhatItLocksExactly | apps/api/src/admin/admin.service.ts:2822-2860 | an approval grants all it locks iff the request equals the total of some prefix of the queue or reaches the whole queue |
| Payouts.PaidUnderCompletedStays | apps/api/src/admin/admin.service.ts:2562-2610 | a payment PAID under a COMPLETED request stays PAID and the request stays as it is, over every run of whole calls |
| Payouts.LateWriteKeepsSettledExactly | apps/api/src/admin/admin.service.ts:2562-3119 | a late write leaves all such payments and requests alone iff a rejected or reversed COMPLETED request has none of its payments PAID by then and no COMPLETED request claims an unmarked payment |
| Payouts.InterleavingsKeepSettled | apps/api/src/admin/admin.service.ts:2562-3119 | over every interleaving whose late writes fit and do so, a payment PAID under a COMPLETED request stays PAID and the request stays as it is |
| Payouts.LateReversalUnsettles | apps/api/src/admin/admin.service.ts:3087-3119 | any COMPLETED request that may be reopened: its payments marked PAID between the check and the write, the reversal still commits and the request is PENDING again |
| Payouts.StaleRejectKeepsSoundExactly | apps/api/src/admin/admin.service.ts:2995-3003 | a rejection written late keeps the agreement iff the request locks nothing by then |
| Payouts.ReopenUndoesCompletion | apps/api/src/admin/admin.service.ts:3047-3119 | reopening a request completed with all its payments in place restores the state before |
| Payouts.ReapprovalIsStable | apps/api/src/admin/admin.service.ts:2806-2860 | sending an approved request back and approving it again locks the same payments for the same amount |
| Payouts.UnmarkUndoesMark | apps/api/src/admin/admin.service.ts:2562-2610 | unmarking a payment just marked restores the state iff no COMPLETED request claims it |
| Payouts.ApprovalReclaimsExactly | apps/api/prisma/schema.prisma:862-867 | an approval takes no payment of a COMPLETED request iff what is queued before each such payment reaches the amount |
| Payouts.FirstRound | apps/api/src/admin/admin.service.ts:2758-3018 | a run from nothing to a COMPLETED request whose payment is not marked paid |
| Payouts.PaymentReclaimed | apps/api/prisma/schema.prisma:862-867 | from there two more calls put that payment under a second request |
| Payouts.PayoutDesk.LockPayments | apps/api/src/admin/admin.service.ts:2822-2835 | the accumulating loop locks the specified prefix and returns its total |
| Payouts.PayoutDesk.ProcessPayoutRequest | apps/api/src/admin/admin.service.ts:2758-3018 | approve, reject or complete, with the automatic reversal to PENDING when a payment moved |
| Payouts.PayoutDesk.CountSettleable | apps/api/src/admin/admin.service.ts:2916-2923 | the count that decides it: all ids settleable iff it equals their number |
| Payouts.PayoutDesk.RevertPayoutRequest | apps/api/src/admin/admin.service.ts:3047-3119 | the allowed reversals, refused when money moved or the vendor is busy |
| Payouts.PayoutDesk.MarkPayoutsPaid | apps/api/src/admin/admin.service.ts:2281-2460 | all payments marked or none, none that a request in flight claims |
| Payouts.PayoutDesk.MarkPayoutUnpaid | apps/api/src/admin/admin.service.ts:2562-2610 | only a PAID payment no APPROVED or COMPLETED request locks |
| Sessions.TokensAreSingleUse | apps/api/src/auth/auth.service.ts:478-606 | in every interleaving each token is consumed at most once and a family has at most one unrotated token, rotations in flight included |
| Sessions.StepKeepsSingleUse | apps/api/src/auth/auth.service.ts:478-606 | every single step keeps that |
| Sessions.SessionsAreBounded | apps/api/src/auth/auth.service.ts:532-605 | a family shares one start, no refresh goes on past the cap, every token expires by start + cap + call time + lifetime |
| Sessions.SerialCallsKeepCap | apps/api/src/auth/auth.service.ts:409-453 | calls run one at a time never leave a user more active tokens than allowed |
| Sessions.EvictKeepsNewest | apps/api/src/auth/auth.service.ts:425-433 | evicting down to k touches nobody else's tokens, leaves k active ones or all if fewer, and never drops one while keeping an older one |
| Sessions.RevocationIsFinalExactly | apps/api/src/auth/auth.service.ts:504-508 | deleting a family on reuse, age or logout ends the session for good, over every run, iff no rotation of it is past its consume and still in time to insert |
| SessionOutcomes.UnknownTokenIsRefused | apps/api/src/auth/auth.service.ts:483-490 | an unknown or deleted token changes nothing |
| SessionOutcomes.ReplayedTokenEndsSession | apps/api/src/auth/auth.service.ts:504-523 | a rotated token presented again: within the grace nothing changes, later every row of its session is deleted; no ticket either way |
| SessionOutcomes.FreshTokenIsChecked | apps/api/src/auth/auth.service.ts:525-541 | expired, its row goes; session too old, all its rows go; otherwise its holder may go on |
| SessionOutcomes.EndedSessionStaysOver | apps/api/src/auth/auth.service.ts:504-541 | after such a replay, or a session grown too old, no run sees a usable token of it again iff no rotation is past its compare-and-set and in time to insert |
| SessionOutcomes.TicketIsUsedOnce | apps/api/src/auth/auth.service.ts:556-568 | one winner marks the token and goes on, a loser changes nothing |
| SessionOutcomes.RoomIsMade | apps/api/src/auth/auth.service.ts:415-432 | clean-up, listing and deletion row by row: exactly the active tokens with too many newer ones are listed, exactly the listed go |
| SessionOutcomes.InsertedToken | apps/api/src/auth/auth.service.ts:434-453 | the new row has its session's family and start and a full lifetime |
| SessionOutcomes.RefusalDropsUser | apps/api/src/auth/auth.service.ts:570-592 | a user gone or suspended loses every row and the call ends |
| SessionOutcomes.LogoutAndPurge | apps/api/src/auth/auth.service.ts:1395-1416 | logout deletes the session's rows, the purge the expired ones |
| Sessions.StepKeepsDead | apps/api/src/auth/auth.service.ts:478-606 | no step revives a family without active tokens or timely calls |
| Sessions.OverlapBoundsTokens | apps/api/src/auth/auth.service.ts:415-453 | cleaning up, listing, deleting and inserting as separate statements, over every interleaving with at most D calls of a user between listing and insert: active tokens stay within the cap + D - 1 |
| Sessions.OverlapReachesBound | apps/api/src/auth/auth.service.ts:420-453 | for every cap and D a run reaches that bound |
| Sessions.CapKeptExactly | apps/api/src/auth/auth.service.ts:420-453 | the cap holds over all such runs iff D <= 1 |
| Sessions.SessionBoundIsReached | apps/api/src/auth/auth.service.ts:532-605 | for every configuration a run ends with a token expiring exactly at start + cap + call time + lifetime |
| Sessions.DropIdsEvicts | apps/api/src/auth/auth.service.ts:425-433 | deleting the tail of the newest-first list is that eviction |
| Sessions.EmptyIsGood | apps/api/src/auth/auth.service.ts:389-453 | the empty store satisfies what the run lemmas assume |
| Sessions.SessionStore.CheckToken | apps/api/src/auth/auth.service.ts:483-541 | unknown, rotated (grace or reuse), expired, too old, or good: the table afterwards in each case |
| Sessions.SessionStore.ConsumeToken | apps/api/src/auth/auth.service.ts:556-568 | the compare-and-set: one winner, a loser changes nothing |
| Sessions.SessionStore.IssueTokens | apps/api/src/auth/auth.service.ts:415-453 | expired rows dropped, oldest evicted, the new row carries family and start |
| Sessions.SessionStore.EndSession | apps/api/src/auth/auth.service.ts:1395-1416 | logout deletes exactly the token's family |
| Outbox.StepEffect | apps/api/src/email/outbox-drain.service.ts:67-76 | a write leaves other rows alone and raises its own row's attempts by exactly one |
| Outbox.RowsChangeBoundedly | apps/api/src/email/outbox-drain.service.ts:46-98 | under any interleaving of drainers a row changes at most 5 times, once per attempt, and SENT and FAILED never change |
| Outbox.SecondWriteSkipped | apps/api/src/email/outbox-drain.service.ts:67-76 | of two writes from one snapshot the second is skipped, whatever happens in between |
| Outbox.DelayBounded | apps/api/src/email/outbox-drain.service.ts:192-197 | every retry is between a minute and an hour plus 30 seconds away |
| Outbox.DelaySchedule | apps/api/src/email/outbox-drain.service.ts:170-174 | the four retries come about 1, 4, 16 and 60 minutes later |
| Outbox.WriteOutcome | apps/api/src/email/outbox-drain.service.ts:61-98 | accepted means SENT, the fifth failure FAILED, earlier ones wait 1, 4, 16 or 60 minutes plus their jitter; a row not pending or tried since is left alone |
| Outbox.OneMore | apps/api/src/email/outbox-drain.service.ts:60-96 | a further write adds one to the tally of its own outcome and leaves the earlier tallies alone |
| Outbox.OutboxTable.ScheduleRetryOrGiveUp | apps/api/src/email/outbox-drain.service.ts:177-199 | skipped, given up or rescheduled, and the row afterwards |
| Outbox.OutboxTable.SendOne | apps/api/src/email/outbox-drain.service.ts:61-90 | SENT under the optimistic lock, or the retry bookkeeping |
| Outbox.OutboxTable.Drain | apps/api/src/email/outbox-drain.service.ts:46-98 | with other drainers writing in between, the counters count what the tick's own writes came to and add up to the rows picked |

## Left out

- Availability.RangeViewIsExact: stated without a vendor lock and for whole units; the range view of per-person units compares overlap sums with a unit's capacity and is legitimately stricter than `createBooking`.
- Calendar.OrphanDayIsExact: on days without orphans the pooled figure of shared units differs from per-unit arithmetic by design, so nothing is stated about it.
- Calendar.CalendarDecidesStays: for stays and bookings made under one check-in and check-out time; bookings from before a change of these times are not covered.
- Reservations.NoOverbooking: the configuration is fixed during a run; lowering `capacity` or `unitCapacity` on a live activity is not modelled; which deletions keep the payment that brings a booking back, and bookings cancelled by the system (which nothing in the code sets), are not modelled: any deleted booking may come back.
- Sessions.SessionsAreBounded: the time between a refresh call's check and its insert is a parameter, since nothing in the code bounds it.
- Pricing.QuoteAddsUp: takes the price before discounts as given; nightly special prices, hourly pro-rating and extras are not modelled.
- Payouts.RunsKeepSound: filing is one step (it guards its write in a serializable transaction, the amount is computed just before it); the filing rules on vendor status and bank-detail cool-down and the audit trail are not modelled.
- Coupons.CouponNeverOverused: one coupon with a fixed positive limit; the claimed-voucher flag, per-customer uniqueness and eligibility rules are not modelled.
- Cancellations.CaptureKeepsRight: a late capture and the refund queued right after it are one step; the points and coupon of a booking brought back (`Recovery.dfy` has its seat), second captures, gateway failures and the reservation clean-up job are not part of this model, nor are earned points and their reversal.
- The admin's other status changes have no from-state check in the service; completing is modelled from CONFIRMED only.
- Lost compare-and-sets are outcomes, error texts are not.
- Deleted rows and tokens are kept as marked rows so that a position identifies a row for good.
- The library sort is a stable insertion sort; the write per unit of a backfill runs in unit order instead of the order in which units were first chosen, with the same result.
- Vendor locks (blocks), past dates, active days, guest breakdowns and lead times in `createBooking`.
- The `take` caps of the queries, the Redis slot and leader locks, caches, cookies, the access-token denylist, notifications and audit rows.
- Payload validation and routing of an outbox row, its `lastError`, and which rows a tick picks beyond the batch size.
- Time zones, `Intl` formatting, calendar dates and 32-bit or floating-point arithmetic.
- Account deletion, password reset, one-time codes, login lockout, catalog listing and everything in the web application.
