/** The rental endpoints: booking creation with period pricing, the edit and cancel guards with
    their stock bookkeeping, and the paging arithmetic of the rental list. */
module RentalController {
  import opened Wrappers
  import opened Timestamps
  import opened RentalModel
  import opened EquipmentModel
  import opened UserModel
  import opened RentalSchemas
  import opened Database
  import RentalService

  /** The refusals of the rental endpoints. */
  datatype RentalApiError =
    | RentalNotFound
    | EquipmentNotFound
    | OnlyAvailable(count: int)
    | NotRentable
    | NotPermitted
    | OnlyPendingEditable
    | OnlyNotesAndAddresses
    | NotCancellable

  /** The HTTP status of each refusal. */
  function StatusCode(e: RentalApiError): (code: int)
    ensures code == 404 <==> e.RentalNotFound? || e.EquipmentNotFound?
    ensures code == 403 <==> e.NotPermitted? || e.OnlyNotesAndAddresses?
    ensures code == 400 <==> e.OnlyAvailable? || e.NotRentable? || e.OnlyPendingEditable? || e.NotCancellable?
  {
    match e
    case RentalNotFound => 404
    case EquipmentNotFound => 404
    case NotPermitted => 403
    case OnlyNotesAndAddresses => 403
    case _ => 400
  }

  // ---------------------------------------------------------------- period pricing

  datatype RentalPeriod = Daily | Weekly | Monthly

  /** Integer ceiling of `n / k`: the least `q` with `n <= k * q`. */
  function CeilDiv(n: int, k: int): (q: int)
    requires k > 0
    ensures k * (q - 1) < n <= k * q
  {
    (n + k - 1) / k
  }

  /** A rate column with a fallback: an unset rate, or a rate of zero, gives the fallback. */
  function RateOr(rate: Option<real>, fallback: real): (r: real)
    ensures rate.Some? && rate.value != 0.0 ==> r == rate.value
    ensures rate.None? || rate.value == 0.0 ==> r == fallback
  {
    if rate.Some? && rate.value != 0.0 then rate.value else fallback
  }

  /** The number of periods billed for a span of `days` whole days: the days themselves, or the
      weeks or 30-day months needed to cover them. */
  function BilledPeriods(days: int, period: RentalPeriod): (n: int)
    ensures period == Daily ==> n == days
    ensures period == Weekly ==> 7 * (n - 1) < days <= 7 * n
    ensures period == Monthly ==> 30 * (n - 1) < days <= 30 * n
  {
    match period
    case Daily => days
    case Weekly => CeilDiv(days, 7)
    case Monthly => CeilDiv(days, 30)
  }

  /** The price of one period of the item: the daily rate, or the weekly or monthly rate when one
      is set and non-zero, else seven or thirty times the daily rate. */
  function PeriodUnitPrice(item: Equipment, period: RentalPeriod): (u: real)
    ensures period == Daily ==> u == item.dailyRate
    ensures period == Weekly ==> u == RateOr(item.weeklyRate, item.dailyRate * 7.0)
    ensures period == Monthly ==> u == RateOr(item.monthlyRate, item.dailyRate * 30.0)
  {
    match period
    case Daily => item.dailyRate
    case Weekly => RateOr(item.weeklyRate, item.dailyRate * 7.0)
    case Monthly => RateOr(item.monthlyRate, item.dailyRate * 30.0)
  }

  datatype PeriodQuote = PeriodQuote(unitPrice: real, totalPrice: real, deposit: real)

  /** The endpoint's quote: periods billed times unit price times quantity, and a deposit of a
      fifth of one unit price, whatever the quantity; the deposit is not part of the total. */
  function QuoteByPeriod(item: Equipment, start: Instant, end: Instant, quantity: int,
                         period: RentalPeriod): (q: PeriodQuote)
    ensures q.unitPrice == PeriodUnitPrice(item, period)
    ensures q.totalPrice
            == q.unitPrice * (BilledPeriods(WholeDays(start, end), period) as real) * (quantity as real)
    ensures q.deposit == q.unitPrice * RentalService.DepositRate
  {
    var unitPrice := PeriodUnitPrice(item, period);
    var periods := BilledPeriods(WholeDays(start, end), period);
    PeriodQuote(unitPrice, unitPrice * (periods as real) * (quantity as real), unitPrice * RentalService.DepositRate)
  }

  /** The endpoint's deposit does not grow with the quantity. */
  lemma DepositIgnoresQuantity(item: Equipment, start: Instant, end: Instant, q1: int, q2: int,
                               period: RentalPeriod)
    ensures QuoteByPeriod(item, start, end, q1, period).deposit
            == QuoteByPeriod(item, start, end, q2, period).deposit
  {
  }

  /** The endpoint and the service disagree. For daily pricing of at least one day, the endpoint's
      total is the service's total without the service's deposit, and the service's deposit is the
      endpoint's deposit times the quantity. */
  lemma DailyQuoteDisagreesWithService(item: Equipment, start: Instant, end: Instant, quantity: int)
    requires WholeDays(start, end) >= 1
    ensures var ours := QuoteByPeriod(item, start, end, quantity, Daily);
            var theirs := RentalService.CalculateRentalPrice(item, start, end, quantity);
            && ours.totalPrice == theirs.totalPrice - theirs.deposit
            && theirs.deposit == ours.deposit * (quantity as real)
            && ours.unitPrice == theirs.unitPrice
  {
  }

  /** A daily rental shorter than one whole day costs nothing at the endpoint, while the service
      charges a full day. */
  lemma SubDayDailyRentalIsFree(item: Equipment, start: Instant, end: Instant, quantity: int)
    requires start <= end < start + SecondsPerDay
    ensures QuoteByPeriod(item, start, end, quantity, Daily).totalPrice == 0.0
    ensures RentalService.CalculateRentalPrice(item, start, end, quantity).durationDays == 1
  {
  }

  /** Without a weekly rate, a rental of whole weeks costs the same weekly as daily. */
  lemma WholeWeeksCostTheSameWithoutWeeklyRate(item: Equipment, start: Instant, weeks: int, quantity: int)
    requires item.weeklyRate.None?
    ensures QuoteByPeriod(item, start, start + 7 * weeks * SecondsPerDay, quantity, Weekly).totalPrice
            == QuoteByPeriod(item, start, start + 7 * weeks * SecondsPerDay, quantity, Daily).totalPrice
  {
    WholeDaysOfExactSpan(start, 7 * weeks);
    var n := BilledPeriods(7 * weeks, Weekly);
    assert n == weeks;
  }

  // ---------------------------------------------------------------- booking creation

  /** The record the endpoint stores: PENDING, quoted by period, with the addresses and the
      delivery flag of the request. */
  function EndpointBookingRecord(req: RentalCreate, user: User, quote: PeriodQuote): Rental
  {
    Rental(user.id, req.equipmentId, req.start, req.end, None, req.quantity,
           quote.unitPrice, quote.totalPrice, quote.deposit, Pending,
           req.notes, None, req.pickupAddress, req.returnAddress, req.deliveryRequired)
  }

  /** `create_rental` of the endpoint: a missing or inactive item is 404; fewer units available
      than requested, or an item not AVAILABLE, is 400; otherwise a PENDING rental is stored. Only
      the item's `quantity_available` counter is consulted, never other bookings, and the counter
      is left as it was. */
  method CreateRental(db: Db, req: RentalCreate, period: RentalPeriod, user: User)
    returns (res: Result<int, RentalApiError>)
    modifies db
    ensures db.equipment == old(db.equipment) && db.payments == old(db.payments)
    ensures res.Err? ==> db.rentals == old(db.rentals)
    ensures ActiveEquipment(old(db.equipment), req.equipmentId).None? ==> res == Err(EquipmentNotFound)
    ensures var found := ActiveEquipment(old(db.equipment), req.equipmentId);
            found.Some? && found.value.quantityAvailable < req.quantity
            ==> res == Err(OnlyAvailable(found.value.quantityAvailable))
    ensures var found := ActiveEquipment(old(db.equipment), req.equipmentId);
            found.Some? && found.value.quantityAvailable >= req.quantity && found.value.status != Available
            ==> res == Err(NotRentable)
    ensures var found := ActiveEquipment(old(db.equipment), req.equipmentId);
            res.Ok? <==> found.Some? && found.value.quantityAvailable >= req.quantity
                         && found.value.status == Available
    ensures res.Ok? ==>
              var item := old(db.equipment)[req.equipmentId];
              && res.value == |db.rentals|
              && db.rentals == old(db.rentals)
                               + [EndpointBookingRecord(req, user, QuoteByPeriod(item, req.start, req.end, req.quantity, period))]
  {
    var found := ActiveEquipment(db.equipment, req.equipmentId);
    if found.None? {
      return Err(EquipmentNotFound);
    }
    var item := found.value;
    if item.quantityAvailable < req.quantity {
      return Err(OnlyAvailable(item.quantityAvailable));
    }
    if item.status != Available {
      return Err(NotRentable);
    }
    var quote := QuoteByPeriod(item, req.start, req.end, req.quantity, period);
    db.rentals := db.rentals + [EndpointBookingRecord(req, user, quote)];
    res := Ok(|db.rentals|);
  }

  // ---------------------------------------------------------------- editing a rental

  /** One field of a partial update: left out of the request, or supplied with a value. */
  datatype Field<T> = Unset | Set(value: T)

  /** The editable columns of a rental. */
  datatype RentalUpdate = RentalUpdate(
    notes: Field<Option<string>>,
    adminNotes: Field<Option<string>>,
    pickupAddress: Field<Option<string>>,
    returnAddress: Field<Option<string>>,
    status: Field<RentalStatus>,
    actualReturn: Field<Option<Instant>>)

  const NoChanges: RentalUpdate := RentalUpdate(Unset, Unset, Unset, Unset, Unset, Unset)

  /** The column names an update supplies. */
  function SuppliedFields(u: RentalUpdate): set<string>
  {
    (if u.notes.Set? then {"notes"} else {})
    + (if u.adminNotes.Set? then {"admin_notes"} else {})
    + (if u.pickupAddress.Set? then {"pickup_address"} else {})
    + (if u.returnAddress.Set? then {"return_address"} else {})
    + (if u.status.Set? then {"status"} else {})
    + (if u.actualReturn.Set? then {"actual_return_date"} else {})
  }

  /** The columns an owner who is not an administrator may edit. */
  const OwnerEditableFields: set<string> := {"notes", "pickup_address", "return_address"}

  /** An update fits the owner's allowance exactly when it leaves the administrator notes, the
      status and the return date alone. */
  lemma OwnerAllowanceCharacterized(u: RentalUpdate)
    ensures SuppliedFields(u) <= OwnerEditableFields
            <==> u.adminNotes.Unset? && u.status.Unset? && u.actualReturn.Unset?
  {
    if u.adminNotes.Set? {
      assert "admin_notes" in SuppliedFields(u);
      assert "admin_notes" != "notes" && "admin_notes" != "pickup_address" && "admin_notes" != "return_address";
    }
    if u.status.Set? {
      assert "status" in SuppliedFields(u);
      assert "status" != "notes" && "status" != "pickup_address" && "status" != "return_address";
    }
    if u.actualReturn.Set? {
      assert "actual_return_date" in SuppliedFields(u);
      assert "actual_return_date" != "notes" && "actual_return_date" != "pickup_address"
             && "actual_return_date" != "return_address";
    }
  }

  function Put<T>(f: Field<T>, current: T): T
  {
    if f.Set? then f.value else current
  }

  /** The record after the supplied columns are written: each supplied column takes its new value,
      and every other column, including everything that prices the rental, keeps its old one. */
  function ApplyUpdate(r: Rental, u: RentalUpdate): (r2: Rental)
    ensures r2.userId == r.userId && r2.equipmentId == r.equipmentId
    ensures r2.start == r.start && r2.end == r.end && r2.quantity == r.quantity
    ensures r2.unitPrice == r.unitPrice && r2.totalPrice == r.totalPrice && r2.deposit == r.deposit
    ensures r2.deliveryRequired == r.deliveryRequired
    ensures u.notes.Set? ==> r2.notes == u.notes.value
    ensures u.notes.Unset? ==> r2.notes == r.notes
    ensures u.adminNotes.Set? ==> r2.adminNotes == u.adminNotes.value
    ensures u.adminNotes.Unset? ==> r2.adminNotes == r.adminNotes
    ensures u.pickupAddress.Set? ==> r2.pickupAddress == u.pickupAddress.value
    ensures u.pickupAddress.Unset? ==> r2.pickupAddress == r.pickupAddress
    ensures u.returnAddress.Set? ==> r2.returnAddress == u.returnAddress.value
    ensures u.returnAddress.Unset? ==> r2.returnAddress == r.returnAddress
    ensures u.status.Set? ==> r2.status == u.status.value
    ensures u.status.Unset? ==> r2.status == r.status
    ensures u.actualReturn.Set? ==> r2.actualReturn == u.actualReturn.value
    ensures u.actualReturn.Unset? ==> r2.actualReturn == r.actualReturn
  {
    r.(notes := Put(u.notes, r.notes),
       adminNotes := Put(u.adminNotes, r.adminNotes),
       pickupAddress := Put(u.pickupAddress, r.pickupAddress),
       returnAddress := Put(u.returnAddress, r.returnAddress),
       status := Put(u.status, r.status),
       actualReturn := Put(u.actualReturn, r.actualReturn))
  }

  /** An update that supplies nothing changes nothing, and applying an update twice is applying it once. */
  lemma ApplyUpdateIdentityAndIdempotence(r: Rental, u: RentalUpdate)
    ensures ApplyUpdate(r, NoChanges) == r
    ensures ApplyUpdate(ApplyUpdate(r, u), u) == ApplyUpdate(r, u)
  {
  }

  /** An update within the owner's allowance never changes the status, the administrator notes or
      the return date. */
  lemma OwnerUpdateKeepsStatus(r: Rental, u: RentalUpdate)
    requires SuppliedFields(u) <= OwnerEditableFields
    ensures ApplyUpdate(r, u).status == r.status
    ensures ApplyUpdate(r, u).adminNotes == r.adminNotes && ApplyUpdate(r, u).actualReturn == r.actualReturn
  {
    OwnerAllowanceCharacterized(u);
  }

  /** The stock movement of an edit that requests `requested`, decided on the status `atCheck`:
      confirming a pending rental reserves its units, and completing or cancelling a confirmed or
      active one returns them. */
  function UpdateStockDelta(requested: RentalStatus, atCheck: RentalStatus, quantity: int): (d: int)
    ensures requested == atCheck ==> d == 0
    ensures requested == Confirmed && atCheck == Pending ==> d == -quantity
    ensures (requested == Completed || requested == Cancelled) && (atCheck == Confirmed || atCheck == Active)
            ==> d == quantity
    ensures d != 0 ==> requested != atCheck
  {
    if requested == Confirmed && atCheck == Pending then -quantity
    else if (requested == Completed || requested == Cancelled) && (atCheck == Confirmed || atCheck == Active)
    then quantity
    else 0
  }

  /** Under the corrected reading, reserving units on confirmation and returning them on completion
      cancel out. */
  lemma ReserveThenReturnNetsZero(quantity: int)
    ensures UpdateStockDelta(Confirmed, Pending, quantity) + UpdateStockDelta(Completed, Confirmed, quantity) == 0
    ensures UpdateStockDelta(Confirmed, Pending, quantity) + UpdateStockDelta(Cancelled, Confirmed, quantity) == 0
  {
  }

  /** The edit guards shared by both versions of the edit: missing rental, a user who is neither
      owner nor administrator, and an owner's out-of-allowance edit. */
  function EditRefusal(r: Rental, u: RentalUpdate, user: User): (e: Option<RentalApiError>)
    ensures e.None? <==> IsAdminUser(user)
                         || (r.userId == user.id && r.status == Pending && SuppliedFields(u) <= OwnerEditableFields)
    ensures r.userId != user.id && !IsAdminUser(user) ==> e == Some(NotPermitted)
    ensures r.userId == user.id && !IsAdminUser(user) && r.status != Pending ==> e == Some(OnlyPendingEditable)
    ensures (r.userId == user.id && !IsAdminUser(user) && r.status == Pending
             && !(SuppliedFields(u) <= OwnerEditableFields)) ==> e == Some(OnlyNotesAndAddresses)
  {
    var isOwner := r.userId == user.id;
    var isAdmin := IsAdminUser(user);
    if !(isOwner || isAdmin) then Some(NotPermitted)
    else if isOwner && !isAdmin && r.status != Pending then Some(OnlyPendingEditable)
    else if isOwner && !isAdmin && !(SuppliedFields(u) <= OwnerEditableFields) then Some(OnlyNotesAndAddresses)
    else None
  }

  /** `update_rental` as written: the supplied columns are written first, and the stock branch then
      compares the requested status with the rental's status, which by then is the requested one;
      so the counter of the item never moves. */
  method UpdateRental(db: Db, rentalId: int, u: RentalUpdate, user: User)
    returns (res: Result<Rental, RentalApiError>)
    modifies db
    ensures db.equipment == old(db.equipment) && db.payments == old(db.payments)
    ensures res.Err? ==> db.rentals == old(db.rentals)
    ensures RowById(old(db.rentals), rentalId).None? ==> res == Err(RentalNotFound)
    ensures RowById(old(db.rentals), rentalId).Some? ==>
              var r := old(db.rentals)[rentalId - 1];
              && (EditRefusal(r, u, user).Some? ==> res == Err(EditRefusal(r, u, user).value))
              && (EditRefusal(r, u, user).None? ==>
                    res == Ok(ApplyUpdate(r, u)) && db.rentals == old(db.rentals)[rentalId - 1 := ApplyUpdate(r, u)])
  {
    var found := RowById(db.rentals, rentalId);
    if found.None? {
      return Err(RentalNotFound);
    }
    var rental := found.value;
    var refusal := EditRefusal(rental, u, user);
    if refusal.Some? {
      return Err(refusal.value);
    }
    var updated := ApplyUpdate(rental, u);
    db.rentals := db.rentals[rentalId - 1 := updated];
    if u.status.Set? {
      var delta := UpdateStockDelta(u.status.value, updated.status, updated.quantity);
      db.equipment := WithStockAdjusted(db.equipment, updated.equipmentId, delta);
    }
    res := Ok(updated);
  }

  /** The evidently intended edit: the stock branch decides on the status the rental had before the
      edit, so confirming a pending rental reserves its units and completing or cancelling a
      confirmed or active one returns them. */
  method UpdateRentalAdjustingStock(db: Db, rentalId: int, u: RentalUpdate, user: User)
    returns (res: Result<Rental, RentalApiError>)
    modifies db
    ensures db.payments == old(db.payments)
    ensures res.Err? ==> db.rentals == old(db.rentals) && db.equipment == old(db.equipment)
    ensures RowById(old(db.rentals), rentalId).None? ==> res == Err(RentalNotFound)
    ensures RowById(old(db.rentals), rentalId).Some? ==>
              var r := old(db.rentals)[rentalId - 1];
              && (EditRefusal(r, u, user).Some? ==> res == Err(EditRefusal(r, u, user).value))
              && (EditRefusal(r, u, user).None? ==>
                    && res == Ok(ApplyUpdate(r, u))
                    && db.rentals == old(db.rentals)[rentalId - 1 := ApplyUpdate(r, u)]
                    && db.equipment
                       == (if u.status.Set?
                           then WithStockAdjusted(old(db.equipment), r.equipmentId,
                                                  UpdateStockDelta(u.status.value, r.status, r.quantity))
                           else old(db.equipment)))
  {
    var found := RowById(db.rentals, rentalId);
    if found.None? {
      return Err(RentalNotFound);
    }
    var rental := found.value;
    var refusal := EditRefusal(rental, u, user);
    if refusal.Some? {
      return Err(refusal.value);
    }
    var previousStatus := rental.status;
    var updated := ApplyUpdate(rental, u);
    db.rentals := db.rentals[rentalId - 1 := updated];
    if u.status.Set? {
      var delta := UpdateStockDelta(u.status.value, previousStatus, updated.quantity);
      db.equipment := WithStockAdjusted(db.equipment, updated.equipmentId, delta);
    }
    res := Ok(updated);
  }

  // ---------------------------------------------------------------- cancelling a rental

  const CancelledMessage: string := "Wypożyczenie zostało anulowane"

  /** The units a cancellation returns, decided on the status `atCheck`: those of a confirmed rental. */
  function CancelStockDelta(atCheck: RentalStatus, quantity: int): (d: int)
    ensures atCheck == Confirmed ==> d == quantity
    ensures atCheck != Confirmed ==> d == 0
  {
    if atCheck == Confirmed then quantity else 0
  }

  /** The statuses a rental can be cancelled from. */
  predicate Cancellable(s: RentalStatus)
  {
    s == Pending || s == Confirmed
  }

  /** `cancel_rental` as written: the status is set to CANCELLED before the restore branch tests for
      CONFIRMED, so the counter of the item never moves. */
  method CancelRental(db: Db, rentalId: int, user: User) returns (res: Result<string, RentalApiError>)
    modifies db
    ensures db.equipment == old(db.equipment) && db.payments == old(db.payments)
    ensures res.Err? ==> db.rentals == old(db.rentals)
    ensures RowById(old(db.rentals), rentalId).None? ==> res == Err(RentalNotFound)
    ensures RowById(old(db.rentals), rentalId).Some? ==>
              var r := old(db.rentals)[rentalId - 1];
              && (r.userId != user.id && !IsAdminUser(user) ==> res == Err(NotPermitted))
              && ((r.userId == user.id || IsAdminUser(user)) && !Cancellable(r.status) ==> res == Err(NotCancellable))
              && (res.Ok? <==> (r.userId == user.id || IsAdminUser(user)) && Cancellable(r.status))
              && (res.Ok? ==> res.value == CancelledMessage
                              && db.rentals == old(db.rentals)[rentalId - 1 := r.(status := Cancelled)])
  {
    var found := RowById(db.rentals, rentalId);
    if found.None? {
      return Err(RentalNotFound);
    }
    var rental := found.value;
    if rental.userId != user.id && !IsAdminUser(user) {
      return Err(NotPermitted);
    }
    if !Cancellable(rental.status) {
      return Err(NotCancellable);
    }
    var cancelled := rental.(status := Cancelled);
    db.rentals := db.rentals[rentalId - 1 := cancelled];
    var delta := CancelStockDelta(cancelled.status, cancelled.quantity);
    db.equipment := WithStockAdjusted(db.equipment, cancelled.equipmentId, delta);
    res := Ok(CancelledMessage);
  }

  /** The evidently intended cancellation: the restore branch reads the status from before the
      cancellation, so cancelling a confirmed rental returns its units to the item. */
  method CancelRentalRestoringStock(db: Db, rentalId: int, user: User) returns (res: Result<string, RentalApiError>)
    modifies db
    ensures db.payments == old(db.payments)
    ensures res.Err? ==> db.rentals == old(db.rentals) && db.equipment == old(db.equipment)
    ensures RowById(old(db.rentals), rentalId).None? ==> res == Err(RentalNotFound)
    ensures RowById(old(db.rentals), rentalId).Some? ==>
              var r := old(db.rentals)[rentalId - 1];
              && (r.userId != user.id && !IsAdminUser(user) ==> res == Err(NotPermitted))
              && ((r.userId == user.id || IsAdminUser(user)) && !Cancellable(r.status) ==> res == Err(NotCancellable))
              && (res.Ok? <==> (r.userId == user.id || IsAdminUser(user)) && Cancellable(r.status))
              && (res.Ok? ==> res.value == CancelledMessage
                              && db.rentals == old(db.rentals)[rentalId - 1 := r.(status := Cancelled)]
                              && db.equipment == WithStockAdjusted(old(db.equipment), r.equipmentId,
                                                                   CancelStockDelta(r.status, r.quantity)))
  {
    var found := RowById(db.rentals, rentalId);
    if found.None? {
      return Err(RentalNotFound);
    }
    var rental := found.value;
    if rental.userId != user.id && !IsAdminUser(user) {
      return Err(NotPermitted);
    }
    if !Cancellable(rental.status) {
      return Err(NotCancellable);
    }
    var previousStatus := rental.status;
    var cancelled := rental.(status := Cancelled);
    db.rentals := db.rentals[rentalId - 1 := cancelled];
    var delta := CancelStockDelta(previousStatus, cancelled.quantity);
    db.equipment := WithStockAdjusted(db.equipment, cancelled.equipmentId, delta);
    res := Ok(CancelledMessage);
  }

  /** The discrepancy, on values: deciding on the status just written never moves stock, while
      deciding on the status before the write moves the rental's units. */
  lemma StockBranchesDecideOnWrittenStatus(quantity: int)
    requires quantity > 0
    ensures UpdateStockDelta(Confirmed, Confirmed, quantity) == 0
    ensures UpdateStockDelta(Confirmed, Pending, quantity) == -quantity
    ensures CancelStockDelta(Cancelled, quantity) == 0
    ensures CancelStockDelta(Confirmed, quantity) == quantity
  {
  }

  // ---------------------------------------------------------------- paging

  /** The first row of page `page`, and the page count: the pages needed to hold `total` rows, and
      one page when there are none. */
  function Paginate(total: nat, page: int, size: int): (r: (int, int))
    requires page >= 1 && 1 <= size <= 100
    ensures r.0 == (page - 1) * size && r.0 >= 0
    ensures r.1 >= 1
    ensures total > 0 ==> (r.1 - 1) * size < total <= r.1 * size
    ensures total == 0 ==> r.1 == 1
  {
    ((page - 1) * size, if total > 0 then CeilDiv(total, size) else 1)
  }

  lemma ScaleMonotonic(a: int, b: int, size: int)
    requires a <= b && size >= 0
    ensures a * size <= b * size
  {
    assert b * size - a * size == (b - a) * size;
  }

  /** Only one block of `size` consecutive rows, counted from zero, contains a given row. */
  lemma BlockIsUnique(k: int, j: int, size: int, row: int)
    requires size >= 1
    requires k * size <= row < (k + 1) * size
    requires j * size <= row < (j + 1) * size
    ensures k == j
  {
    if k < j {
      ScaleMonotonic(k + 1, j, size);
    } else if j < k {
      ScaleMonotonic(j + 1, k, size);
    }
  }

  /** Every row lies on exactly one of the reported pages. */
  lemma EveryRowOnOnePage(total: nat, size: int, row: int)
    requires 1 <= size <= 100 && 0 <= row < total
    ensures var p := row / size + 1;
            && 1 <= p <= Paginate(total, 1, size).1
            && Paginate(total, p, size).0 <= row < Paginate(total, p, size).0 + size
    ensures forall p :: 1 <= p && Paginate(total, p, size).0 <= row < Paginate(total, p, size).0 + size
                        ==> p == row / size + 1
  {
    var d := row / size;
    assert d * size <= row < (d + 1) * size by {
      assert row == d * size + row % size;
    }
    var pages := Paginate(total, 1, size).1;
    if d + 1 > pages {
      ScaleMonotonic(pages, d, size);
    }
    forall q | 1 <= q && Paginate(total, q, size).0 <= row < Paginate(total, q, size).0 + size
      ensures q == d + 1
    {
      assert (q - 1) * size + size == q * size;
      BlockIsUnique(q - 1, d, size, row);
    }
  }
}
