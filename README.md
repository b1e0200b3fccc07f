# Rydeit booking and admin core, in Dafny

Rydeit rents motorcycles and scooters in one city. A customer picks a machine,
enters pickup and drop times and the handover method, and sees a quoted price.
The quote comes from a tiered tariff:

- 0.8, 1.0 or 1.4 days for the first 24 hours;
- beyond that, fixed time-of-day blocks (08-14, 14-20, 20-08), each charged
  in full or half.

The quote adds early/late fees, home delivery and pickup fees, and an optional
discount against the flat-day price. The customer submits the booking, pays an
advance (by screenshot or in cash), signs the rental agreement, starts the ride
and finishes it.

Admins work in a console:

- a ride ledger, where they filter bookings, confirm, reject, dispatch and
  finish rides, and settle adjustments;
- per-machine fleet statistics;
- a rider registry with search, an audit card, and block and whitelist
  switches;
- an overview of counts and revenue over a date range.

This project models that core and proves what it promises.

| module | file | what it holds |
|---|---|---|
| `Common` | common.dfy | Option, JavaScript truthiness, filter/count/sum over sequences, JavaScript `trim` white space, ASCII lower-casing, substring search, code-point string order |
| `Clock` | clock.dfy | timestamps as minutes `day * 1440 + minuteOfDay`, `getHours`, `setHours` |
| `Records` | records.dfy | tariff constants, the catalog, booking and profile rows, the overdue test, net amount, row updates by key |
| `Pricing` | pricing.dfy | the `charges` breakdown, including the block walk as a loop proved against its specification |
| `BookingForm` | booking_form.dfy | the form as a class: steps, inputs, submission guards, the upsert |
| `MyBookings` | my_bookings.dfy | the rider dashboard as a class: payment, signing, start and finish of a ride |
| `AdminBookings` | admin_bookings.dfy | the ride ledger as a class: filters, status buttons, running adjustment |
| `AdminFleet` | admin_fleet.dfy | per-machine statistics, filter, sort, utilization |
| `AdminUsers` | admin_users.dfy | rider search, audit figures, block and whitelist switches |
| `AdminDashboard` | admin_dashboard.dfy | overview figures, date-range revenue, tab and filter switching |

## Conventions

- **Time.** A date is a day index, and an "HH:MM" time is minutes since
  midnight (0..1439). Zero-padded "HH:MM" strings compare exactly as these
  numbers do, so the submission guard's string comparisons become integer
  comparisons.
- **Money.** Amounts are exact integers. An emptied adjustment amount (NaN in
  the source) is `None`.
  - The tiered base price is counted in tenths of the effective daily rate.
    The multipliers 0.8, 1.0, 1.4, 0.4 and 0.2 and their halves are all whole
    tenths.
  - Every `Math.floor` the form takes is an integer division by 10.
  - `Math.round(x / d * 100)` is `(200x + d) / (2d)`.
- **Backend writes.** The hosted backend's update and upsert calls become a
  `writeOk` parameter. The stored rows change exactly when the write succeeds.
- **Clock reads.** "Now" is a parameter wherever the source reads the clock.

## Where the intended behaviour and the code disagree

The tariff's intended behaviour, as stated below, differs from the code in
three places. The model follows the code in each case.

- **Base price against the flat-day price.** The intended behaviour is that
  `basePrice <= referencePrice` always holds. The code does not ensure it.
  Pickup on day 1 at 10:00 with drop on day 2 at 20:00 costs 2.2 days tiered,
  against 2 flat days. `Pricing.BaseMayExceedReference` proves this. The code
  only guards the charged rent, through `hasDiscount`.
- **Negative discount.** The intended behaviour is that a negative discount
  is never presented. The code floors `referencePrice - basePrice`, which can be
  negative, and so does the model.
- **Where the block walk's cursor moves.** The intended behaviour moves the
  cursor to the clipped block end. The code jumps to the unclipped end. Both end the
  walk at the drop, and the model follows the code.

## Model

| member | source | states |
|---|---|---|
| Clock.HourOf | rydeit/components/BookingForm.tsx:216 | `getHours()` lies in 0..23 and brackets the minute of the day |
| Clock.SetHours | rydeit/components/BookingForm.tsx:220-223 | `setHours(h,0,0,0)` keeps the day and lands on minute `60h` of it |
| Records.FindBike | rydeit/components/BookingForm.tsx:189 | the bike found has the id and is in the catalog; none is found only when no entry has the id |
| Records.UpdateWhere | rydeit/components/Admin/AdminBookings.tsx:55 | `update(...).eq(...)` rewrites exactly the selected rows and keeps the others, in place |
| Records.RowWithId | rydeit/components/Admin/AdminBookings.tsx:61-62 | the reread row is a table row with that id; none only when no row has it |
| Pricing.ReferencePriceFacts | rydeit/components/BookingForm.tsx:196-199 | `rEff` is the rate plus 99 when outstation; the reference price is `rEff` times the days from pickup to drop date inclusive, and at least `rEff` |
| Pricing.BlockEnd | rydeit/components/BookingForm.tsx:219-223 | the block end is strictly after the cursor |
| Pricing.BlockEndIsNextBoundary | rydeit/components/BookingForm.tsx:219-228 | the cursor jumps to the very next 08:00, 14:00 or 20:00, with no boundary skipped, so the walk advances |
| Pricing.BlockCharge | rydeit/components/BookingForm.tsx:224-227 | a block costs its full price or half of it, and half exactly when the used time is under half its nominal length (a tie pays in full) |
| Pricing.TierBoundaries | rydeit/components/BookingForm.tsx:204-211 | exactly 6h is 0.8, exactly 12h is 1.0, exactly 24h across two dates is 1.4, and one minute more adds the first block's half price |
| Pricing.BlockChargeMono | rydeit/components/BookingForm.tsx:224-227 | more used minutes never cost less in one block |
| Pricing.BlockChargesMono | rydeit/components/BookingForm.tsx:212-229 | a later drop never lowers the walk's total, since earlier blocks are charged from unclipped ends |
| Pricing.BaseTenthsMono | rydeit/components/BookingForm.tsx:204-229 | for a fixed pickup, the tiered price never drops as the drop moves later |
| Pricing.BasePrice | rydeit/components/BookingForm.tsx:201-230 | the tier choice and block-walk loop compute the tiered price specified by `BaseTenths` |
| Pricing.SideFee | rydeit/components/BookingForm.tsx:232-243 | each side pays 99 once, exactly when its time is before 08:00 or after 20:00 (both instants themselves free) |
| Pricing.HandoverFee | rydeit/components/BookingForm.tsx:245-246 | a home pickup or drop adds 199, the garage nothing |
| Pricing.FeesTotal | rydeit/components/BookingForm.tsx:237-246 | the four fees total between 0 and 2·99 + 2·199 |
| Pricing.ChosenRentIsMin | rydeit/components/BookingForm.tsx:248-252 | the rent charged never exceeds the reference price; it is the reference price without the discount and the smaller of the two with it |
| Pricing.Assemble | rydeit/components/BookingForm.tsx:248-272 | security is 1000; the reference price is the flat-day price and the base price the floor of the tiered one; `hasDiscount` iff the tiered price undercuts the reference; the discount percent is the rounded share of the reference saved (0 for a zero reference); each side fee and early/late flag follows its own pickup or drop time, each handover fee its own method; `0 <= advance <= finalPayable <= reference + fees`; without the discount the payable is reference + fees; the payable is the floor of the chosen rent plus the fees, the advance the floor of 40% of it, the discount the floor of the reference less the tiered price |
| Pricing.Charges | rydeit/components/BookingForm.tsx:191-192 | there is no breakdown exactly when no bike is chosen or the id is not in the catalog |
| Pricing.ComputeCharges | rydeit/components/BookingForm.tsx:191-273 | the form's computation, block walk included, yields the specified breakdown |
| Pricing.BasePriceOf | rydeit/components/BookingForm.tsx:257 | the displayed base price is the floor of the tiered price in rupees |
| Pricing.BasePriceMonotone | rydeit/components/BookingForm.tsx:204-229 | with pickup and rate fixed, the displayed base price never drops as the drop moves later |
| Pricing.BaseMayExceedReference | rydeit/components/BookingForm.tsx:248-252 | day 1 10:00 to day 2 20:00 is 2.2 days tiered against 2 flat days; `hasDiscount` is false and the reference price is charged |
| Pricing.ScenarioFourHours | rydeit/components/BookingForm.tsx:204-205 | four hours at 1000 a day cost 800 |
| Pricing.ScenarioSameDayTenHours | rydeit/components/BookingForm.tsx:206-207 | ten hours at 1000 a day cost 1000 |
| Pricing.ScenarioOvernightDay | rydeit/components/BookingForm.tsx:208-209 | 24 hours across midnight at 1000 a day cost 1400 |
| Pricing.ScenarioEarlyPickup | rydeit/components/BookingForm.tsx:237-243 | a 06:00 pickup carries the 99 early fee |
| Pricing.ScenarioThirtyHours | rydeit/components/BookingForm.tsx:211-229 | thirty hours from 10:00 cost 1.4 + 0.4 + 0.2 days (the 14-16 block is under half used) |
| BookingForm.SubmitGuard | rydeit/components/BookingForm.tsx:318-340 | submission passes iff terms are accepted, both times lie in 06:00-22:00, drop is after pickup and a home handover has a non-blank address; otherwise it names the first failing guard |
| BookingForm.NoBreakSpaceAddressRefused | rydeit/components/BookingForm.tsx:337-340 | a home-handover address of no-break spaces is blank to `trim` and is refused |
| BookingForm.SubmitGuardOrder | rydeit/components/BookingForm.tsx:318-340 | the hours refusal and the drop-before-pickup refusal each occur exactly under their own condition, the earlier guards passing |
| BookingForm.SubmittedPayloadFacts | rydeit/components/BookingForm.tsx:344-360 | a payload that passed the guards is well formed, is pending payment, and carries the quote's payable as rent and its advance |
| BookingForm.Form.CurrentCharges | rydeit/components/BookingForm.tsx:191-192 | a breakdown exists only once a bike is chosen |
| BookingForm.Form.constructor | rydeit/components/BookingForm.tsx:79-116 | details step when the link names a machine, else selection; 10:00-20:00 today, garage handover, discount on, terms unticked |
| BookingForm.Form.HandleBikeSelection | rydeit/components/BookingForm.tsx:275-284 | a booked machine is refused with no change; otherwise the id is taken and the details step opens |
| BookingForm.Form.HandleStepClick | rydeit/components/BookingForm.tsx:286-293 | details and payment are refused while no machine is chosen; otherwise the step is taken |
| BookingForm.Form.HandlePreviousStep | rydeit/components/BookingForm.tsx:295-299 | payment goes back to details and details to selection; selection stays |
| BookingForm.Form.HandleBookNewRide | rydeit/components/BookingForm.tsx:301-313 | back to selection with no machine, garage handover both ways, not outstation |
| BookingForm.Form.EditDetails | rydeit/components/BookingForm.tsx:460-525 | the detail inputs replace every field but the machine |
| BookingForm.Form.ToggleDiscount | rydeit/components/BookingForm.tsx:593 | the discount switch flips and nothing else changes |
| BookingForm.Form.SetAcceptedTerms | rydeit/components/BookingForm.tsx:616 | the checkbox sets the terms flag and nothing else changes |
| BookingForm.Form.HandleSubmitRequest | rydeit/components/BookingForm.tsx:315-372 | a failing guard is reported with nothing stored; a failed write stores nothing; otherwise the payload is upserted under the readable id and the payment step opens; every stored row stays well formed |
| MyBookings.Actions | rydeit/components/MyBookings.tsx:517-556 | payment buttons iff pending payment; sign iff confirmed and unsigned; start iff confirmed and signed; finish iff on the road; documents iff on the road, completed or signed |
| MyBookings.ActionsExclusive | rydeit/components/MyBookings.tsx:517-556 | payment, signing, starting and finishing are never offered together; start needs an agreement signed in this session |
| MyBookings.MarkPaidCash | rydeit/components/MyBookings.tsx:258-261 | every row with that readable id awaits verification with payment method cash; the other rows are unchanged |
| MyBookings.MarkScreenshot | rydeit/components/MyBookings.tsx:388-389 | every row with that readable id stores the screenshot and awaits verification; the other rows are unchanged |
| MyBookings.MarkStarted | rydeit/components/MyBookings.tsx:418 | the row with that id is on the road from now; the other rows are unchanged |
| MyBookings.MarkFinished | rydeit/components/MyBookings.tsx:431 | the row with that id is completed at now; the other rows are unchanged |
| MyBookings.SignedIsKept | rydeit/components/MyBookings.tsx:486 | a signed booking stays signed as the set grows and through start and finish |
| MyBookings.VerifiedCanSign | rydeit/components/MyBookings.tsx:97-102 | a complete identity, as the start guard at line 405 demands it, satisfies the signing guard |
| MyBookings.Dashboard.constructor | rydeit/components/MyBookings.tsx:23-31 | rides tab, empty signed set, no cash confirmation |
| MyBookings.Dashboard.SelectTab | rydeit/components/MyBookings.tsx:466-468 | the tab changes and nothing else does |
| MyBookings.Dashboard.SignAgreement | rydeit/components/MyBookings.tsx:97-102 | without both document numbers the identity tab opens and nothing is signed; otherwise the booking id joins the signed set (line 251); the set never shrinks |
| MyBookings.Dashboard.HandlePaidCash | rydeit/components/MyBookings.tsx:255-275 | on a successful write the rows await a cash check and the confirmation shows; otherwise nothing changes |
| MyBookings.Dashboard.HandleFileUpload | rydeit/components/MyBookings.tsx:374-402 | nothing without a rider or a successful upload; a payment proof with a booking id updates that booking; any other upload sets only the profile's licence or Aadhaar photo |
| MyBookings.Dashboard.HandleUpdateProfile | rydeit/components/MyBookings.tsx:349-372 | the five edited fields replace the profile's; nothing changes without a rider or on a failed write |
| MyBookings.Dashboard.HandleStartRide | rydeit/components/MyBookings.tsx:404-426 | the ride starts iff identity is complete, the agreement was signed here and the write succeeds; an incomplete identity opens the identity tab; no ride is ever started unsigned |
| MyBookings.Dashboard.HandleFinishRide | rydeit/components/MyBookings.tsx:428-440 | on a successful write the booking is completed at now |
| AdminBookings.Shown | rydeit/components/Admin/AdminBookings.tsx:26-48 | the listed rows come from the table and pass the filter |
| AdminBookings.ShownIff | rydeit/components/Admin/AdminBookings.tsx:30-45 | a row is listed iff it is in the table and passes the filter ('pending' verifying payment, 'running' ongoing, 'overdue' ongoing past its return, 'completed' completed) |
| AdminBookings.ShownAll | rydeit/components/Admin/AdminBookings.tsx:26-34 | 'all' lists the whole table in order |
| AdminBookings.OverdueWithinRunning | rydeit/components/Admin/AdminBookings.tsx:36-43 | the overdue list is never longer than the running list |
| AdminBookings.NetDisplay | rydeit/components/Admin/AdminBookings.tsx:186 | the net shown is the booking's net amount: the rent alone without an adjustment, the adjustment alone without a rent (`null + x` is `x`) |
| AdminBookings.Adjusted | rydeit/components/Admin/AdminBookings.tsx:72-75 | fee, damage and revenue add the amount to the current adjustment (missing is 0); refund, discount and expenditure subtract it; an emptied amount gives a null adjustment (NaN is sent as `null`) |
| AdminBookings.AdjustmentsCancel | rydeit/components/Admin/AdminBookings.tsx:72-75 | a subtracting entry undoes an adding entry of the same amount |
| AdminBookings.AdjustmentMovesNet | rydeit/components/Admin/AdminBookings.tsx:72-80 | the booking's net moves by exactly the signed amount; an emptied amount erases the adjustment, leaving the rent alone |
| AdminBookings.WithStatus | rydeit/components/Admin/AdminBookings.tsx:52-53 | the status is written; the admin note only when a reason is given; nothing else changes |
| AdminBookings.WithAdjustment | rydeit/components/Admin/AdminBookings.tsx:77-80 | the adjustment amount and reason are written and nothing else |
| AdminBookings.StatusRows | rydeit/components/Admin/AdminBookings.tsx:55 | the rows with that id take the status update; the others are unchanged |
| AdminBookings.AdjustmentRows | rydeit/components/Admin/AdminBookings.tsx:77-80 | the rows with that id take the adjustment; the others are unchanged |
| AdminBookings.StatusRowsFound | rydeit/components/Admin/AdminBookings.tsx:55-62 | after an update a row with that id exists iff one did before, and it carries the new status |
| AdminBookings.Ledger.constructor | rydeit/components/Admin/AdminBookings.tsx:14-19 | the given filter, nothing open, an empty fee adjustment |
| AdminBookings.Ledger.SetFilter | rydeit/components/Admin/AdminBookings.tsx:129 | the filter changes and nothing else does |
| AdminBookings.Ledger.Select | rydeit/components/Admin/AdminBookings.tsx:190 | the booking is opened and nothing else changes |
| AdminBookings.Ledger.EditAdjustment | rydeit/components/Admin/AdminBookings.tsx:302-312 | the adjustment inputs change and nothing else does |
| AdminBookings.Ledger.UpdateStatus | rydeit/components/Admin/AdminBookings.tsx:51-65 | on a successful write the rows with that id take the status (and note); an open booking with that id is reread; a failed write changes nothing |
| AdminBookings.Ledger.ConfirmPayment | rydeit/components/Admin/AdminBookings.tsx:275-276 | on a successful write the rows with its id take the status update and the open booking is confirmed; a failed write changes nothing |
| AdminBookings.Ledger.RejectPayment | rydeit/components/Admin/AdminBookings.tsx:281 | on a successful write the rows with its id take the status update and the open booking awaits payment again, noted 'Rejected'; a failed write changes nothing |
| AdminBookings.Ledger.Dispatch | rydeit/components/Admin/AdminBookings.tsx:288 | on a successful write the rows with its id take the status update and the open booking is on the road; a failed write changes nothing |
| AdminBookings.Ledger.ReceiveBack | rydeit/components/Admin/AdminBookings.tsx:289 | on a successful write the rows with its id take the status update and the open booking is completed; a failed write changes nothing |
| AdminBookings.Ledger.HandleAdjustment | rydeit/components/Admin/AdminBookings.tsx:67-90 | applied iff a booking is open, a reason is given and the write succeeds; then the rows take the signed total (null for an emptied amount) and reason, the booking is reread and the form resets to 0, '' and fee; otherwise nothing changes |
| AdminFleet.Classify | rydeit/components/Admin/AdminFleet.tsx:38-49 | ALIVE iff some ride is on the road; else MAINTENANCE iff the catalog says so; else DEAD |
| AdminFleet.StatsFor | rydeit/components/Admin/AdminFleet.tsx:34-57 | net revenue is revenue less maintenance cost; future rides are the machine's confirmed rides whose pickup day starts no earlier than now; the maintenance cost and distance are pinned down in `StatsFacts` |
| AdminFleet.FleetStats | rydeit/components/Admin/AdminFleet.tsx:34 | one row per catalog machine, in catalog order |
| AdminFleet.StatsFacts | rydeit/components/Admin/AdminFleet.tsx:35-55 | ride count is the machine's bookings; revenue is their rent plus their adjustments; maintenance cost is the sum of the machine's logged costs; distance is the odometer difference summed over its rides with both readings; ALIVE iff one of them is on the road; every confirmed future ride is listed |
| AdminFleet.DistanceOverReadings | rydeit/components/Admin/AdminFleet.tsx:42-45 | adding each ride's leg (0 without both truthy readings) equals summing end minus start over just the rides with both readings |
| AdminFleet.Filtered | rydeit/components/Admin/AdminFleet.tsx:64-70 | the filter never adds rows |
| AdminFleet.FilteredIff | rydeit/components/Admin/AdminFleet.tsx:64-70 | a row is kept iff its name contains the search case-insensitively and the category and status selectors admit it |
| AdminFleet.FilteredEverything | rydeit/components/Admin/AdminFleet.tsx:64-70 | an empty search with both selectors on all keeps every row |
| AdminFleet.BeforeTotal | rydeit/components/Admin/AdminFleet.tsx:71-77 | any two rows are ordered one way or the other under every key |
| AdminFleet.InsertSorted | rydeit/components/Admin/AdminFleet.tsx:71-78 | inserting into a sorted list keeps it sorted and adds exactly that row |
| AdminFleet.SortRowsCorrect | rydeit/components/Admin/AdminFleet.tsx:71-78 | the sort is ordered by the key (names ascending, figures descending) and is a permutation |
| AdminFleet.Listed | rydeit/components/Admin/AdminFleet.tsx:63-79 | the listed rows are sorted by the key and are exactly the rows the filter admits |
| AdminFleet.RoundedShare | rydeit/components/Admin/AdminFleet.tsx:111 | the rounded percentage lies in 0..100, is within half a point of the exact share, and is 100 for all and 0 for none |
| AdminFleet.Utilization | rydeit/components/Admin/AdminFleet.tsx:111 | utilization is 0 for an empty fleet, otherwise the rounded share of ALIVE machines, always 0..100 |
| AdminUsers.FilteredUsers | rydeit/components/Admin/AdminUsers.tsx:27-37 | the search never adds riders |
| AdminUsers.FilteredUsersIff | rydeit/components/Admin/AdminUsers.tsx:27-37 | a rider is listed iff the lower-cased search occurs in a non-null name, email, WhatsApp number or phone |
| AdminUsers.EmptySearchKeepsNonNull | rydeit/components/Admin/AdminUsers.tsx:27-37 | with an empty search a rider is listed iff one of the four fields is not null |
| AdminUsers.RidesOf | rydeit/components/Admin/AdminUsers.tsx:43-46 | the audited rides are exactly the rider's bookings |
| AdminUsers.AuditOf | rydeit/components/Admin/AdminUsers.tsx:48-57 | ride count is the number of rides; penalties count the rides with a positive adjustment and never exceed it; there is no last ride iff there are no rides, and otherwise it is the first fetched ride's booking time |
| AdminUsers.TotalSpentSplits | rydeit/components/Admin/AdminUsers.tsx:50 | total spent is the rent taken plus every adjustment |
| AdminUsers.LastRideIsLatest | rydeit/components/Admin/AdminUsers.tsx:46-56 | fetched newest first, the last ride is the booking time of one of the rides, and no ride is later |
| AdminUsers.BlockStep | rydeit/components/Admin/AdminUsers.tsx:61-75 | the rider's stored block flag becomes the negation of the one passed; the other riders are unchanged |
| AdminUsers.VerifyStep | rydeit/components/Admin/AdminUsers.tsx:77-84 | the rider's stored whitelist flag becomes the negation of the one passed; the open card is left as it was |
| AdminUsers.VerifyStepCorrected | rydeit/components/Admin/AdminUsers.tsx:77-84 | the stored flag is negated as written; the open card follows as it does for blocking |
| AdminUsers.BlockFromCard | rydeit/components/Admin/AdminUsers.tsx:61-75 | pressing the card's block button flips the rider's stored flag, keeps card and list in step, and twice restores everything |
| AdminUsers.VerifyFromCardGoesStale | rydeit/components/Admin/AdminUsers.tsx:77-84 | after a whitelist press the card disagrees with the list, and a second press whitelists again |
| AdminUsers.VerifyFromCardCorrected | rydeit/components/Admin/AdminUsers.tsx:77-84 | corrected, the whitelist button flips the flag, keeps the card in step and twice restores everything |
| AdminUsers.Registry.constructor | rydeit/components/Admin/AdminUsers.tsx:20-25 | the fetched riders, no card open, no audit |
| AdminUsers.Registry.FetchUserAudit | rydeit/components/Admin/AdminUsers.tsx:39-59 | the card opens on the rider with the audit of exactly that rider's bookings in the table |
| AdminUsers.Registry.CloseAudit | rydeit/components/Admin/AdminUsers.tsx:168 | the card closes and nothing else changes |
| AdminUsers.Registry.ToggleBlock | rydeit/components/Admin/AdminUsers.tsx:61-75 | on a successful write the list and the card take the block step; otherwise nothing changes |
| AdminUsers.Registry.ToggleVerify | rydeit/components/Admin/AdminUsers.tsx:77-84 | on a successful write the list takes the whitelist step; otherwise nothing changes |
| AdminDashboard.StatsOf | rydeit/components/Admin/AdminDashboard.tsx:36-67 | total is every booking; overdue never exceeds active; active plus pending never exceed total; users is the count or 0; revenue is the net of the bookings created within the date range |
| AdminDashboard.FiguresMatchLedger | rydeit/components/Admin/AdminDashboard.tsx:54-63 | total, active, pending and overdue equal the lengths of the ledger's all, running, pending and overdue lists |
| AdminDashboard.RangeRevenueSplits | rydeit/components/Admin/AdminDashboard.tsx:46-51 | the revenue of a date range (both ends included) is the sum of its two halves split at any day |
| AdminDashboard.EmptyRangeRevenue | rydeit/components/Admin/AdminDashboard.tsx:46-51 | a range that ends before it starts has revenue 0 |
| AdminDashboard.Console.constructor | rydeit/components/Admin/AdminDashboard.tsx:13-14 | the overview tab with the 'all' filter |
| AdminDashboard.Console.SelectTab | rydeit/components/Admin/AdminDashboard.tsx:95-98 | the tab is taken; the rides tab resets the filter to 'all', any other keeps it |
| AdminDashboard.Console.HandleReturnWatch | rydeit/components/Admin/AdminDashboard.tsx:69-72 | the rides tab opens on the overdue list |
| AdminDashboard.Console.ReviewPayments | rydeit/components/Admin/AdminDashboard.tsx:166 | the rides tab opens on the payments awaiting a check |

## Findings

| source | as written | input that shows it | evidently intended | confidence | as-written member | corrected member |
|---|---|---|---|---|---|---|
| rydeit/components/Admin/AdminUsers.tsx:77-84 | `toggleVerify` updates the stored flag but not the open audit card, which still shows the old flag | an unverified rider's card, whitelist pressed twice: the rider ends up whitelisted after both presses, where the second should revoke | update the open card as `toggleBlock` does (lines 71-73), so the button keeps toggling | high, not executed | AdminUsers.VerifyFromCardGoesStale | AdminUsers.VerifyFromCardCorrected |

## Left out

- Records.BookingDetails: the form's `bikeId` is an integer here. The source keeps it as a string, finds the machine by `id.toString() === bikeId` and stores `parseInt(bikeId)`. So a link id such as "015" finds no machine but would store 15, and the model cannot express that.
- Hosted backend: selects, updates, upserts, storage uploads, public URLs and auth sessions are not modelled. Their outcome is the `writeOk` or `uploadOk` parameter, and the rows they return are inputs.
- The booking form's profile sync (rydeit/components/BookingForm.tsx:134-165) is not modelled, because it reads and writes profiles on the backend.
- The booking-link effect after payment (rydeit/components/BookingForm.tsx:173-186) is not modelled, because it is a backend write followed by navigation.
- The form's re-sync when the link's machine changes (rydeit/components/BookingForm.tsx:119-126) is not modelled. The constructor takes the linked machine once.
- Rendering, toasts, scrolling, `window.open`, the QR code and the PDF agreement are presentation only and are not modelled. Signing is modelled only through its guard and its effect on the signed set.
- Draft persistence in `localStorage` and the random readable booking id are not modelled. The id is a constructor parameter, and the step restored from a draft is not modelled.
- The `isSubmitting`, `isUpdating`, `uploadingDoc`, `uploadingPhoto` and `loading` flags only disable buttons and are not modelled.
- Maintenance logging and the return-photo upload (rydeit/components/Admin/AdminFleet.tsx:81, rydeit/components/Admin/AdminBookings.tsx:92) are writes to the backend only.
- `toggleBlock`'s `admin_notes` text is not modelled, because it holds a locale-formatted clock reading.
- Time zones, daylight saving and JavaScript's local-versus-UTC date parsing are not modelled. Every date is a plain day index.
- Floating point is not modelled. The model uses exact tenths, so products such as `1.4 * 700` that round just below an integer in IEEE arithmetic are exact here.
- Pricing.Assemble: `discountPercent` is 0 when the reference price is 0, where the code yields NaN. This happens only for a zero daily rate in town.
- `toLowerCase` is modelled for ASCII letters only. `localeCompare` for the fleet name sort is replaced by code-point order, a total order.
- AdminFleet.SortRows: stability of the sort is not stated. Ties keep an order, but the model does not claim it is the input order.
- AdminFleet.LogCost: a missing maintenance cost (`m.cost || 0`) is not modelled. Costs are plain integers.
- BookingForm.Form.HandleSubmitRequest requires the details step, the only step whose form submits. Its effect from other steps is not modelled.
- AdminBookings.Ledger.ConfirmPayment requires the open booking not to be confirmed yet, as the button is disabled then.
- The admin ledger's list is recomputed from the table on demand (`Ledger.Listed`). The order of the fetched rows (`created_at` descending) is taken as the table order.
- AdminUsers.Registry.FetchUserAudit: the rider's rides are taken in table order, not re-sorted by `created_at`. `LastRideIsLatest` states what holds once they arrive newest first.
- The dashboard's user count comes from a counting query and is an input. When the query fails it is treated as `null`.
