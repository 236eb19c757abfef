# Equipment rental: booking and payment core in Dafny

This project models the core of an equipment-rental web application. Its back end is a FastAPI service
over a relational store. Its front end is a React client. The model covers:

- **Records and their computed properties.** Rentals (six statuses, length in days, overdue
  detection), equipment (availability), payments (success and refundability), users (display name)
  and refresh tokens (expiry and validity).
- **Request bodies and their validators.** A new rental (end after start, positive quantity),
  offline and card payments (positive amount, a 0.50 card minimum, four currencies folded to lower
  case), registration (six-character password), and the catalogue's daily rate.
- **The booking service.** The 90-day window rule, and the availability engine, which sums the
  quantities of the PENDING, CONFIRMED and ACTIVE bookings that overlap a half-open window. Also
  daily pricing with a 20 % deposit, the cap of 100 open rentals per user, booking creation with
  rollback on a store failure, and the pricing preview.
- **The rental endpoints.** Creation priced by day, week or month. Editing, with its owner and
  administrator rules and its stock bookkeeping. Cancellation. The paging arithmetic of the list.
- **The payment endpoints.** Card payment intents, reconciliation of a payment with the card
  gateway's status, offline approval by an administrator, and recording an offline payment. Each of
  them confirms a PENDING rental when its payment succeeds.
- **The front end's helpers.** `isValidEmail`, `isStrongPassword`, `formatUserName`, `isAdmin`, and
  the login and registration form validators.

The store is the class `Database.Db`. It has a map of equipment rows and two append-only sequences
of rental and payment rows, where the row with id `k` sits at position `k - 1`. The endpoints are
methods that change it, and each is proved against pure functions: `PlanRental`, `SyncStatus`,
`ApproveOffline`, `ConfirmLinkedRental`, `ApplyUpdate` and the stock-delta functions. Lemmas prove
what the application promises about those functions:

- a granted booking never overbooks an item at any instant;
- a granted booking keeps every user within the cap;
- the preview and the booking agree;
- confirmation and reconciliation are idempotent, and an approval happens once;
- a row falls on exactly one page;
- the e-mail pattern accepts exactly the well-formed addresses;
- a validated form is valid exactly when every rule passes.

Outside inputs are parameters:

- the clock (`now`);
- the card gateway's answers (`IntentReply`, `IntentLookup`); the request sent to the gateway is an
  output;
- whether the gateway is configured;
- whether the store fails on commit.

Time is counted in whole seconds. Money is an exact `real`.

## Model

| member | source | states |
|---|---|---|
| Timestamps.WholeDays | backend/app/services/rental_service.py:24 | the day count of a time difference is the floor of the span over 86400 seconds: bounded by the span on both sides, non-negative exactly for forward spans |
| Timestamps.WholeDaysOfExactSpan | backend/app/services/rental_service.py:24 | a span of exactly n days counts n days |
| Timestamps.WholeDaysMonotonic | backend/app/services/rental_service.py:24 | the day count never decreases as the end moves later |
| RentalModel.RentalStatusesAreExactlySix | backend/app/models/rental.py:8-14 | every rental status is one of the six listed, and they are distinct |
| RentalModel.NewRental | backend/app/models/rental.py:30-45 | a record built from its required columns carries the given user, item, window, unit price and total, and is PENDING with quantity 1, deposit 0, no delivery, no return date, notes or addresses; it holds stock and is never overdue |
| RentalModel.DurationDays | backend/app/models/rental.py:61-66 | the length is the whole days up to the actual return when recorded, else up to the agreed end |
| RentalModel.DurationOfOneWeek | backend/app/models/rental.py:61-66 | a rental of exactly seven days without a return lasts 7 days |
| RentalModel.DurationFollowsReturn | backend/app/models/rental.py:64-65 | a recorded return n days after the start gives length n, whatever the agreed end |
| RentalModel.IsOverdue | backend/app/models/rental.py:68-72 | overdue if and only if CONFIRMED or ACTIVE and the clock is past the end |
| RentalModel.NeverOverdueOutsideConfirmedOrActive | backend/app/models/rental.py:71-72 | PENDING, COMPLETED, CANCELLED and OVERDUE rentals are never reported overdue |
| RentalModel.OverdueStaysOverdue | backend/app/models/rental.py:71-72 | once overdue, a rental stays overdue as time passes |
| EquipmentModel.IsAvailable | backend/app/models/equipment.py:65-67 | available if and only if the status is AVAILABLE and at least one unit is in stock |
| EquipmentModel.NewEquipment | backend/app/models/equipment.py:45-47 | a new item is AVAILABLE with one unit owned and one available, and so is available |
| EquipmentModel.CountersAreUnconstrained | backend/app/models/equipment.py:46-47 | no constraint ties the counters: an item may report more units available than it owns and still be available |
| PaymentModel.NewPayment | backend/app/models/payment.py:37-41 | a new payment is PENDING, in PLN, for the rental fee, neither successful nor refundable |
| PaymentModel.IsSuccessful | backend/app/models/payment.py:66-69 | successful if and only if COMPLETED or OFFLINE_APPROVED |
| PaymentModel.CanBeRefunded | backend/app/models/payment.py:71-74 | refundable if and only if COMPLETED and paid by card |
| PaymentModel.RefundableIsSuccessful | backend/app/models/payment.py:66-74 | whatever can be refunded has succeeded |
| PaymentModel.OfflineApprovalIsNotRefundable | backend/app/models/payment.py:66-74 | an offline-approved payment is a success that can never be refunded |
| UserModel.NewUser | backend/app/models/user.py:29-36 | a new user is a local, unverified, unblocked, active customer, not an administrator |
| UserModel.FullName | backend/app/models/user.py:47-49 | the display name is the first name, one space, the last name, position by position |
| UserModel.FullNameOfJanKowalski | backend/app/models/user.py:47-49 | Jan Kowalski's display name is "Jan Kowalski" |
| UserModel.FullNameSplits | backend/app/models/user.py:47-49 | the display name and the first name's length determine both names |
| RefreshTokens.NewRefreshToken | backend/app/models/refresh_token.py:13 | a new token is not revoked, so it is valid exactly until its expiry |
| RefreshTokens.IsExpired | backend/app/models/refresh_token.py:19-23 | expired if and only if the clock is strictly past the expiry |
| RefreshTokens.IsValid | backend/app/models/refresh_token.py:25-28 | valid if and only if neither revoked nor expired |
| RefreshTokens.ValidityIsMonotone | backend/app/models/refresh_token.py:19-28 | a token valid now was valid at every earlier instant |
| RefreshTokens.RevokedIsNeverValid | backend/app/models/refresh_token.py:25-28 | a revoked token is invalid at every instant |
| RentalSchemas.ValidateEndDate | backend/app/views/rental_schemas.py:26-30 | an end date is refused, with its message, exactly when a parsed start exists and the end is not after it |
| RentalSchemas.ValidateQuantity | backend/app/views/rental_schemas.py:32-36 | a quantity passes unchanged if and only if it is positive |
| RentalSchemas.ParseRentalCreate | backend/app/views/rental_schemas.py:16-36 | a request is accepted if and only if the end is after the start and any supplied quantity is positive; defaults are quantity 1 and no delivery; a refusal carries one or two messages |
| RentalSchemas.ZeroQuantityRejected | backend/app/views/rental_schemas.py:32-36 | a quantity of zero is refused with the "greater than 0" message |
| PaymentSchemas.ValidatePaymentAmount | backend/app/views/payment_schemas.py:29-33 | an offline amount passes unchanged if and only if it is positive |
| PaymentSchemas.ValidateStripeAmount | backend/app/views/payment_schemas.py:41-47 | a card amount passes if and only if it is at least 0.50; non-positive and too-small amounts get their own messages |
| PaymentSchemas.LowerChar | backend/app/views/payment_schemas.py:52 | an upper-case ASCII letter becomes the lower-case letter at the same place in the alphabet; every other character is unchanged |
| PaymentSchemas.ToLower | backend/app/views/payment_schemas.py:52-54 | lower-casing keeps the length and folds each character |
| PaymentSchemas.ToLowerIdempotent | backend/app/views/payment_schemas.py:52-54 | lower-casing twice is lower-casing once |
| PaymentSchemas.ValidateCurrency | backend/app/views/payment_schemas.py:49-54 | a currency passes if and only if its lower-cased form is pln, eur, usd or gbp, and it is returned lower-cased |
| PaymentSchemas.ValidateCurrencyIdempotent | backend/app/views/payment_schemas.py:49-54 | validating an accepted currency again accepts it unchanged |
| PaymentSchemas.CurrencyExamples | backend/app/views/payment_schemas.py:38-54 | the default "pln" is accepted as is and "EUR" becomes "eur" |
| UserSchemas.NewToken | backend/app/views/user_schemas.py:53-56 | a sign-in token is of type "bearer" and carries the access token |
| UserSchemas.ValidatePassword | backend/app/views/user_schemas.py:25-29 | a password passes unchanged if and only if it has at least six characters |
| UserSchemas.PasswordExamples | backend/app/views/user_schemas.py:25-29 | "password123" passes and "123" is refused |
| EquipmentSchemas.NewEquipmentCreate | backend/app/views/equipment_schemas.py:25-39 | an omitted field takes its default: one unit, no licence, minimum age 18, no weekly or monthly rate |
| EquipmentSchemas.ValidateDailyRate | backend/app/views/equipment_schemas.py:41-45 | a daily rate passes unchanged if and only if it is positive |
| Database.ActiveEquipment | backend/app/services/rental_service.py:40-43 | the item is found if and only if the row exists and is active, and the found row is that row |
| Database.EquipmentById | backend/app/controllers/rental_controller.py:234 | the item is found if and only if the row exists, whatever its active flag |
| Database.WithStockAdjusted | backend/app/controllers/rental_controller.py:238-241 | only the available counter of the one row moves, by the delta; every other row and column stays the same |
| Database.RowById | backend/app/controllers/rental_controller.py:191 | a row (a rental here, a payment at payment_controller.py:170) is found if and only if its id was assigned, and it is the row at that id |
| Database.RentalByOptionalId | backend/app/controllers/payment_controller.py:140 | a null rental id finds nothing; otherwise the same lookup as by id |
| RentalService.StatusCode | backend/app/services/rental_service.py:26-156 | every service failure is answered 400, except a missing item and a failed store, which are answered 500 |
| RentalService.ValidateRentalDates | backend/app/services/rental_service.py:22-30 | a window passes if and only if it spans at most 90 whole days |
| RentalService.ReversedWindowPasses | backend/app/services/rental_service.py:22-30 | a window that ends before it starts passes the date rule |
| RentalService.Occupied | backend/app/services/rental_service.py:51-61 | the occupied quantity is non-negative for non-negative bookings, and zero when no booking conflicts |
| RentalService.OccupiedConcat | backend/app/services/rental_service.py:51-61 | the occupied quantity of two lists together is the sum of theirs |
| RentalService.OccupiedInsert | backend/app/services/rental_service.py:51-61 | inserting a booking anywhere adds its quantity if it conflicts and nothing otherwise |
| RentalService.CheckEquipmentAvailability | backend/app/services/rental_service.py:32-70 | a missing or inactive item fails; a request over the total stock fails with that total; a request over the total less the occupied quantity fails with that remainder; every other request is granted, and a granted request fits within the total together with what is occupied |
| RentalService.BackToBackBookingIgnored | backend/app/services/rental_service.py:55-57 | a booking that ends exactly when the request starts does not change the answer |
| RentalService.ClosedRentalIgnored | backend/app/services/rental_service.py:54 | a completed, cancelled or overdue booking never changes the answer |
| RentalService.AddingBookingNeverFreesStock | backend/app/services/rental_service.py:51-68 | adding a booking never turns a refusal into a grant |
| RentalService.HalfOpenWindowExample | backend/app/services/rental_service.py:51-68 | with one unit booked for June 1 to 8, June 5 to 10 is refused with 0 available and June 8 to 10 is granted |
| RentalService.LoadAt | backend/app/services/rental_service.py:51-61 | the stock held at one instant is non-negative for non-negative bookings |
| RentalService.LoadWithinWindowBoundedByOccupied | backend/app/services/rental_service.py:51-61 | the stock held at any instant inside a window is at most the window's occupied quantity |
| RentalService.LoadAppend | backend/app/services/rental_service.py:51-61 | appending a booking adds its quantity at exactly the instants it covers |
| RentalService.GrantedBookingKeepsCapacity | backend/app/services/rental_service.py:32-70 | storing a booking that the check granted keeps every item within its total stock at every instant |
| RentalService.CalculateRentalPrice | backend/app/services/rental_service.py:72-94 | at least one day is charged; the unit price is the daily rate; the deposit is the daily rate times 0.2 times the quantity; the total is the rate times the quantity times the days plus one fifth, so it includes the deposit and covers the subtotal |
| RentalService.PriceIsLinearInQuantity | backend/app/services/rental_service.py:84-86 | total and deposit for q units are q times those for one unit |
| RentalService.WeekForTwoExample | backend/app/services/rental_service.py:72-94 | two units for seven days at 100 a day cost 1440, with a deposit of 40 |
| RentalService.OpenRentalCount | backend/app/services/rental_service.py:97-102 | a user's open rentals are at most all rentals |
| RentalService.OpenRentalCountAppend | backend/app/services/rental_service.py:97-102 | appending a rental adds one exactly when it is the user's and holds stock |
| RentalService.ValidateUserEligibility | backend/app/services/rental_service.py:96-108 | a user is refused if and only if they already hold 100 or more open rentals |
| RentalService.PlanRental | backend/app/services/rental_service.py:110-144 | the checks run in order and the first failure is the answer: a window of more than 90 whole days is refused first, then an availability error, then a requester at the cap of open rentals; a granted request passed availability and the cap, and yields a PENDING record for the request carrying the computed daily price, total and deposit |
| RentalService.GrantedBookingKeepsUserCap | backend/app/services/rental_service.py:124 | a granted booking gives its user exactly one more open rental, from fewer than 100 |
| RentalService.GrantedRequestKeepsCapacity | backend/app/services/rental_service.py:110-150 | granting and storing a request keeps every item within capacity at every instant |
| RentalService.CreateRental | backend/app/services/rental_service.py:110-156 | a refused plan or a failed store leaves the store unchanged with that error; otherwise exactly the planned record is appended under the next id |
| RentalService.GetPricingPreview | backend/app/services/rental_service.py:158-184 | a preview is given if and only if the date rule and the availability check pass, whatever the requester's open-rental count; it names the item and its quote is exactly the price computation for the item, window and quantity, with the daily rate as the unit price |
| RentalService.PreviewAgreesWithBooking | backend/app/services/rental_service.py:110-184 | a granted booking was previewable at the same total and deposit; a previewable request is granted unless the user is at the cap; a refused preview means a refused booking with the same error |
| RentalController.StatusCode | backend/app/controllers/rental_controller.py:48-276 | each refusal of the rental endpoints maps to its status: 404 for a missing record, 403 for a forbidden edit, 400 for the rest |
| RentalController.CeilDiv | backend/app/controllers/rental_controller.py:73 | the ceiling of n / k is the least q with n at most k times q |
| RentalController.RateOr | backend/app/controllers/rental_controller.py:74 | an unset or zero rate gives the fallback; any other rate is used as is |
| RentalController.BilledPeriods | backend/app/controllers/rental_controller.py:67-79 | daily bills the days; weekly and monthly bill the fewest 7- or 30-day periods that cover them |
| RentalController.PeriodUnitPrice | backend/app/controllers/rental_controller.py:69-78 | the unit is the daily rate, or the weekly or monthly rate falling back to 7 or 30 daily rates |
| RentalController.QuoteByPeriod | backend/app/controllers/rental_controller.py:67-91 | total = unit price times billed periods times quantity; deposit = a fifth of one unit price |
| RentalController.DepositIgnoresQuantity | backend/app/controllers/rental_controller.py:91 | the endpoint's deposit is the same for every quantity |
| RentalController.DailyQuoteDisagreesWithService | backend/app/controllers/rental_controller.py:67-91 | for a daily booking of a day or more, the endpoint's total is the service's total without its deposit, and the service's deposit is the endpoint's times the quantity |
| RentalController.SubDayDailyRentalIsFree | backend/app/controllers/rental_controller.py:67-71 | a daily booking shorter than a day costs nothing at the endpoint, while the service charges a day |
| RentalController.WholeWeeksCostTheSameWithoutWeeklyRate | backend/app/controllers/rental_controller.py:69-75 | without a weekly rate, whole weeks cost the same billed weekly as daily |
| RentalController.CreateRental | backend/app/controllers/rental_controller.py:34-103 | a missing or inactive item is 404; too few available units, or an item not AVAILABLE, is 400; otherwise exactly one PENDING record, quoted by period, is appended; the stock counters never change |
| RentalController.OwnerAllowanceCharacterized | backend/app/controllers/rental_controller.py:218-222 | an update is within the owner's allowance if and only if it leaves admin notes, status and return date unset |
| RentalController.ApplyUpdate | backend/app/controllers/rental_controller.py:229-230 | each of the six updatable columns (notes, admin notes, pickup and return address, status, actual return) takes its new value when supplied and keeps its old one when not; the booking window, quantity, prices and delivery never change |
| RentalController.ApplyUpdateIdentityAndIdempotence | backend/app/controllers/rental_controller.py:229-230 | an empty update changes nothing, and applying an update twice equals applying it once |
| RentalController.OwnerUpdateKeepsStatus | backend/app/controllers/rental_controller.py:210-230 | an update the owner may make never changes the status, the admin notes or the return date |
| RentalController.UpdateStockDelta | backend/app/controllers/rental_controller.py:233-241 | confirming from PENDING reserves the units; completing or cancelling from CONFIRMED or ACTIVE returns them; a status compared with itself moves nothing |
| RentalController.ReserveThenReturnNetsZero | backend/app/controllers/rental_controller.py:236-241 | reserving on confirmation and returning on completion or cancellation cancel out |
| RentalController.EditRefusal | backend/app/controllers/rental_controller.py:199-226 | an edit is allowed if and only if the caller is an administrator, or the owner of a PENDING rental editing only notes and addresses; each other case gets its own refusal |
| RentalController.UpdateRental | backend/app/controllers/rental_controller.py:182-246 | as written: a missing rental is 404; a refused edit changes nothing; an allowed edit writes each supplied column, keeps each column not supplied, and never moves the stock |
| RentalController.UpdateRentalAdjustingStock | backend/app/controllers/rental_controller.py:182-246 | corrected: as the edit above (each supplied column written, each other column kept), but the item's counter moves by the stock delta of the requested status against the status before the edit |
| RentalController.CancelStockDelta | backend/app/controllers/rental_controller.py:280-283 | cancelling gives back the units exactly when the status tested is CONFIRMED |
| RentalController.CancelRental | backend/app/controllers/rental_controller.py:248-287 | as written: a missing rental is 404, another user's is 403, a rental not PENDING or CONFIRMED is 400; otherwise it becomes CANCELLED and the stock never moves |
| RentalController.CancelRentalRestoringStock | backend/app/controllers/rental_controller.py:248-287 | corrected: as above, but cancelling a CONFIRMED rental returns its units to the item |
| RentalController.StockBranchesDecideOnWrittenStatus | backend/app/controllers/rental_controller.py:233-283 | testing the status just written moves no stock; testing the status from before the write moves the rental's units |
| RentalController.Paginate | backend/app/controllers/rental_controller.py:121-139 | page p starts at row (p - 1) times size; the page count is the fewest pages that hold every row, and 1 when there are none |
| RentalController.BlockIsUnique | backend/app/controllers/rental_controller.py:122 | one block of consecutive rows contains a given row |
| RentalController.EveryRowOnOnePage | backend/app/controllers/rental_controller.py:121-139 | every row lies on a reported page, and on exactly one |
| PaymentController.StatusCode | backend/app/controllers/payment_controller.py:47-222 | each refusal of the payment endpoints maps to its status: 501 unconfigured, 404 missing, 403 forbidden, 400 for the rest |
| PaymentController.ConfirmIfPending | backend/app/controllers/payment_controller.py:141-142 | a PENDING rental becomes CONFIRMED; any other is left as it is |
| PaymentController.ConfirmLinkedRental | backend/app/controllers/payment_controller.py:139-142 | only the linked rental can change, and only out of PENDING; a missing link changes nothing |
| PaymentController.ConfirmationIsIdempotent | backend/app/controllers/payment_controller.py:139-142 | confirming twice is confirming once |
| PaymentController.ToCents | backend/app/controllers/payment_controller.py:71 | the amount in hundredths is truncated toward zero: within one unit of 100 times the amount, on the side of zero |
| PaymentController.ToCentsBounds | backend/app/controllers/payment_controller.py:71 | whole hundredths convert exactly, and every accepted card amount is at least 50 hundredths |
| PaymentController.DecimalDigits | backend/app/controllers/payment_controller.py:90 | an id is written as its decimal digits: at least one, only digits, spelling exactly the id, with no leading zero unless the id is zero |
| PaymentController.IntentPayment | backend/app/controllers/payment_controller.py:81-91 | the stored intent payment is PENDING, by card, for the rental fee, and not yet successful |
| PaymentController.CreateStripePaymentIntent | backend/app/controllers/payment_controller.py:39-108 | unconfigured is 501, an unknown rental 404, another user's 403, and nothing is sent to the gateway then; otherwise the amount in hundredths is sent; a gateway refusal is 400; only an accepted intent appends exactly one payment |
| PaymentController.MapGatewayStatus | backend/app/controllers/payment_controller.py:135-149 | "succeeded" maps to COMPLETED, "canceled" to CANCELLED, the two "requires_" statuses to FAILED, each if and only if; any other status maps to nothing |
| PaymentController.SyncStatus | backend/app/controllers/payment_controller.py:134-151 | the mapped status is taken when there is one; success records the processing time and failure the reason; the gateway status is always stored; payer, amount, currency, type, method, description, links and approval fields never change |
| PaymentController.ResyncIsStable | backend/app/controllers/payment_controller.py:134-151 | reconciling again with the same gateway status changes nothing but the processing time |
| PaymentController.FindPayment | backend/app/controllers/payment_controller.py:123-126 | the first payment with that external id and owner is found, and none is found only when none exists |
| PaymentController.ConfirmStripePayment | backend/app/controllers/payment_controller.py:110-160 | a gateway refusal is 400 and another user's payment 404, with nothing changed; otherwise only that payment is reconciled, and on success only its rental is confirmed |
| PaymentController.ApproveOffline | backend/app/controllers/payment_controller.py:184-189 | an approved payment is OFFLINE_APPROVED, successful, not refundable and not approvable again, and records approver, time and notes; payer, amount, currency, type, method, description, gateway id and status, and failure reason never change |
| PaymentController.ApprovePaymentOffline | backend/app/controllers/payment_controller.py:162-200 | a non-administrator gets 403, an unknown payment 404, a payment already COMPLETED or approved 400, with nothing changed; otherwise that payment is approved and only its rental is confirmed |
| PaymentController.ApprovalHappensOnce | backend/app/controllers/payment_controller.py:178-185 | an approved payment cannot be approved again, and a payment is approvable exactly when it has not succeeded |
| PaymentController.OfflinePayment | backend/app/controllers/payment_controller.py:226-237 | the recorded payment is already approved, successful and not refundable, owned by the rental's user, for the requested amount |
| PaymentController.CreateOfflinePayment | backend/app/controllers/payment_controller.py:202-248 | a non-administrator gets 403, a missing or zero rental id 400, an administrator naming an unknown rental 404; otherwise exactly one approved payment is appended and the rental, if PENDING, is confirmed |
| UtilityHelpers.JsLength | tests_front/unit/helpers/utilityHelpers.jsx:13 | a string's length in UTF-16 code units is between its character count and twice it, and equals it when every character is in the Basic Multilingual Plane |
| UtilityHelpers.TrimStart | tests_front/unit/helpers/utilityHelpers.jsx:19 | the result is a suffix after white space only, and does not start with white space |
| UtilityHelpers.TrimEnd | tests_front/unit/helpers/utilityHelpers.jsx:18 | the result is a prefix before white space only, and does not end with white space |
| UtilityHelpers.Trim | tests_front/unit/helpers/validationHelpers.jsx:29 | the trimmed string has white space at neither end |
| UtilityHelpers.TrimOfTrimmed | tests_front/unit/helpers/utilityHelpers.jsx:18-19 | a string without white space at either end is its own trim |
| UtilityHelpers.TrimStartSkipsSpaces | tests_front/unit/helpers/utilityHelpers.jsx:19 | dropping leading white space first does not change the result |
| UtilityHelpers.TrimEndSkipsSpaces | tests_front/unit/helpers/utilityHelpers.jsx:18 | dropping trailing white space first does not change the result |
| UtilityHelpers.TrimStartOfPadded | tests_front/unit/helpers/utilityHelpers.jsx:19 | white space before a word is exactly what is removed |
| UtilityHelpers.TrimEndOfPadded | tests_front/unit/helpers/utilityHelpers.jsx:18 | white space after a word is exactly what is removed |
| UtilityHelpers.EmailPatternCharacterized | tests_front/unit/helpers/utilityHelpers.jsx:9 | the pattern accepts an address if and only if it has no white space, exactly one `@` that is not first, and a `.` strictly inside the domain |
| UtilityHelpers.MatchIsWellFormed | tests_front/unit/helpers/utilityHelpers.jsx:9 | a match of the pattern is a well-formed address |
| UtilityHelpers.WellFormedMatches | tests_front/unit/helpers/utilityHelpers.jsx:9 | a well-formed address matches the pattern |
| UtilityHelpers.IndexOf | tests_front/unit/helpers/utilityHelpers.jsx:6 | the first position of the character, or -1 exactly when it does not occur |
| UtilityHelpers.SplitAtSign | tests_front/unit/helpers/utilityHelpers.jsx:6 | without `@` there is one piece, the whole string; otherwise the first piece is the text before the first `@` and a second piece exists |
| UtilityHelpers.IsValidEmail | tests_front/unit/helpers/utilityHelpers.jsx:4-10 | an accepted value is a string that matches the pattern and whose local part has no two dots in a row |
| UtilityHelpers.SplitAtOnlyAtSign | tests_front/unit/helpers/utilityHelpers.jsx:6 | with a single `@`, the pieces are the text before it and everything after it |
| UtilityHelpers.IsValidEmailCharacterized | tests_front/unit/helpers/utilityHelpers.jsx:4-10 | an address is valid if and only if it is well formed and its local part has no two dots in a row |
| UtilityHelpers.LetterAddressValid | tests_front/unit/helpers/utilityHelpers.jsx:4-10 | an address of lower-case letters with one `@`, and dots only strictly inside the domain, is valid |
| UtilityHelpers.ValidEmailExample | tests_front/unit/helpers/utilityHelpers.jsx:4-10 | "test@example.com" is valid |
| UtilityHelpers.DotFirstInDomainRefused | tests_front/unit/helpers/utilityHelpers.jsx:9 | "test@.com" is refused |
| UtilityHelpers.MissingAtSignRefused | tests_front/unit/helpers/utilityHelpers.jsx:6-7 | "invalid-email" is refused |
| UtilityHelpers.DoubleDotBeforeAtSignRefused | tests_front/unit/helpers/utilityHelpers.jsx:6-8 | two dots in a row before the first `@` make an address invalid, whatever follows |
| UtilityHelpers.DoubleDotRefused | tests_front/unit/helpers/utilityHelpers.jsx:8 | "user..name@example.com" is refused, though the pattern alone accepts it |
| UtilityHelpers.IsStrongPassword | tests_front/unit/helpers/utilityHelpers.jsx:12-14 | a non-string is never strong; a string is strong if and only if it has at least six UTF-16 code units (six characters or more always suffice) |
| UtilityHelpers.PasswordExamples | tests_front/unit/helpers/utilityHelpers.jsx:12-14 | "password123" and "abcdef" are strong; "12345" and "" are not |
| UtilityHelpers.FormatUserName | tests_front/unit/helpers/utilityHelpers.jsx:17-24 | the result is empty if and only if both trimmed parts are; with only one part present it is that trimmed part alone; with both present it is first, one space, last |
| UtilityHelpers.FormatUserNameMatchesFullName | tests_front/unit/helpers/utilityHelpers.jsx:17-24 | for names with no white space where the helper trims, the front end's name equals the back end's full name |
| UtilityHelpers.FormatUserNameExample | tests_front/unit/helpers/utilityHelpers.jsx:17-24 | Jan Kowalski is formatted "Jan Kowalski" |
| UtilityHelpers.FormatPartialNameExamples | tests_front/unit/helpers/utilityHelpers.jsx:20-22 | an empty or missing part is dropped with its space, and two empty parts give "" |
| UtilityHelpers.IsAdmin | tests_front/unit/helpers/utilityHelpers.jsx:26-28 | an administrator if and only if a user is present and their role is "admin" |
| UtilityHelpers.IsAdminAgreesWithBackEnd | tests_front/unit/helpers/utilityHelpers.jsx:26-28 | the front end's check agrees with the back end's role on every user, and no user is no administrator |
| ValidationHelpers.KeyCount | tests_front/unit/helpers/validationHelpers.jsx:21 | an error object has at most six keys, and none exactly when no key holds a message |
| ValidationHelpers.EmptyEmailIsMissing | tests_front/unit/helpers/validationHelpers.jsx:4-5 | an empty address is reported as missing |
| ValidationHelpers.EmailRuleCharacterized | tests_front/unit/helpers/validationHelpers.jsx:4-8 | the e-mail key stays unset if and only if the address is well formed |
| ValidationHelpers.CheckEmail | tests_front/unit/helpers/validationHelpers.jsx:4-8 | an empty address is missing, any other address the pattern refuses is malformed, and a match gets no message |
| ValidationHelpers.CheckPassword | tests_front/unit/helpers/validationHelpers.jsx:10-14 | an empty password is missing, one under six code units too short, any other gets no message |
| ValidationHelpers.ValidateLoginForm | tests_front/unit/helpers/validationHelpers.jsx:1-24 | each key holds its rule's message and the name keys stay unset; the form is valid if and only if no key is set, and if and only if the address matches, the password has six code units and the terms are accepted |
| ValidationHelpers.NoRuleFailsIffAllPass | tests_front/unit/helpers/validationHelpers.jsx:26-59 | no registration rule fails if and only if every verdict is favourable |
| ValidationHelpers.NoKeysIffAllPass | tests_front/unit/helpers/validationHelpers.jsx:57-59 | an error object that follows the rules is empty if and only if every verdict is favourable |
| ValidationHelpers.CheckName | tests_front/unit/helpers/validationHelpers.jsx:29-35 | a name gets its message if and only if it is empty or shorter than two code units once trimmed |
| ValidationHelpers.ValidateRegisterForm | tests_front/unit/helpers/validationHelpers.jsx:26-61 | every key holds exactly its rule's message; the form is valid if and only if no key is set, and if and only if every rule passes |
| ValidationHelpers.PaddedNamePasses | tests_front/unit/helpers/validationHelpers.jsx:29 | a name padded with white space trims back to itself, and only its own length decides |
| ValidationHelpers.UnpaddedNamePasses | tests_front/unit/helpers/validationHelpers.jsx:29-35 | a name of two or more characters with no white space at either end passes the name rule |
| ValidationHelpers.JanEmailMatches | tests_front/unit/helpers/validationHelpers.jsx:39 | "jan@example.com" matches the pattern |
| ValidationHelpers.CompleteRegisterFormPasses | tests_front/unit/helpers/validationHelpers.jsx:26-61 | a fully and correctly filled registration form passes every rule |

## Left out

- Clock, card gateway, authentication and authorisation tokens, password hashing and HTTP routing are not modelled; their results are parameters. The administrator dependency of the payment endpoints is the test `IsAdminUser` on the caller.
- Concurrency and transactions are not modelled: each endpoint runs alone against the store.
- Sub-second parts of date-times and time-zone normalisation are left out. Instants are whole seconds in one naive time scale.
- `Numeric(10,2)` storage rounding, and the string width limits of the columns, are left out. Amounts are exact rationals.
- The `detail` strings of refusals are left out. Each refusal is a constructor of its own, and only the messages that are returned (validator messages, the gateway prefix, the cancellation message) are kept.
- The listing and detail endpoints (`get_my_rentals`, `get_rental`, `get_payments`, `get_payment`) are left out, as are their joins with user and equipment names. Only their paging arithmetic is modelled, in `Paginate`. Their `Query` bounds (page at least 1, size 1 to 100) are its requires.
- The administrator and catalogue controllers, and the storage helpers of the front end, are left out. The helpers read and write browser storage.
- The equipment partial-update and response schemas (backend/app/views/equipment_schemas.py:47-75) are left out with the catalogue controller that consumes them. They declare optional fields and no validators.
- RentalController.CreateRental: models the endpoint as if the new record could be built. As written, the record is given a `rental_period` column the rental table does not have, and the deposit multiplies a decimal by a float; Python rejects both. The request schema defines no rental period, so the period is a parameter here.
- RentalController.UpdateRental: the update schema is not defined in the source. Its fields are taken to be notes, admin notes, the two addresses, status and actual return date.
- RentalController.UpdateRentalAdjustingStock: a missing equipment row leaves the store unchanged, where the source would fail dereferencing it.
- RentalController.CancelRentalRestoringStock: a missing equipment row leaves the store unchanged, where the source would fail dereferencing it.
- PaymentController.CreateOfflinePayment: the offline request body has no payment method, so the method the endpoint reads is a parameter.
- PaymentController.CreateStripePaymentIntent: the response schema requires a payment id that the endpoint never supplies. The model returns the new payment's id in its place.
- The reconciliation of a card payment and the offline approval never move stock counters, as the code has it, although confirmation of a rental elsewhere reserves units.
- Python's `str.lower` is modelled as ASCII folding. No non-ASCII character lower-cases to a letter of the four allowed codes, so the accepted set is the same.
- JavaScript values other than strings reach the form validators only as strings here. The e-mail and password helpers take a non-string value explicitly.
- ValidationHelpers.ValidateLoginForm and ValidationHelpers.ValidateRegisterForm: the error object is a record with one optional message per key, so the order in which keys were inserted is not modelled. A passing check writes an absent message instead of skipping the key, which gives the same object.

## Findings

| source | as written | input that shows it | evidently intended | confidence | as-written member | corrected member |
|---|---|---|---|---|---|---|
| backend/app/controllers/rental_controller.py:229-241 | the supplied status is written before the stock branch compares it with the rental's status, so the two are always equal and the counter never moves | an administrator sets status CONFIRMED on a PENDING rental of 2 units: the item's available count stays the same | confirming a pending rental reserves its units; completing or cancelling a confirmed or active one returns them | high, not executed | RentalController.UpdateRental | RentalController.UpdateRentalAdjustingStock |
| backend/app/controllers/rental_controller.py:278-283 | the status is set to CANCELLED before the restore branch tests for CONFIRMED, so the branch never runs | cancelling a CONFIRMED rental of 1 unit: the item's available count stays the same | cancelling a confirmed rental returns its units to the item | high, not executed | RentalController.CancelRental | RentalController.CancelRentalRestoringStock |
