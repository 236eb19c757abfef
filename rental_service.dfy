/** The booking service: date-window validation, the availability engine, pricing, the per-user cap
    on open rentals, booking creation and the pricing preview. */
module RentalService {
  import opened Wrappers
  import opened Timestamps
  import opened RentalModel
  import opened EquipmentModel
  import opened UserModel
  import opened RentalSchemas
  import opened Database

  /** Longest rental accepted, in whole days. */
  const MaxRentalDays: int := 90

  /** A user holding this many open rentals cannot open another. */
  const MaxOpenRentals: int := 100

  /** Failures of the service. Every one aborts the request before anything is stored. */
  datatype ServiceError =
    | TooLong
    | ItemMissing
    | ExceedsTotalStock(total: int)
    | InsufficientStock(available: int)
    | TooManyOpenRentals
    | PersistenceFailed

  /** The HTTP status each failure reaches the client with. A missing or inactive item is not
      checked for: reading its stock fails and the framework answers 500. */
  function StatusCode(e: ServiceError): (code: int)
    ensures code == 400 || code == 500
    ensures code == 500 <==> e.ItemMissing? || e.PersistenceFailed?
  {
    match e
    case ItemMissing => 500
    case PersistenceFailed => 500
    case _ => 400
  }

  // ---------------------------------------------------------------- date window

  /** The only date rule: more than 90 whole days is too long. Past start dates and an end before
      the start are not rejected here. */
  function ValidateRentalDates(start: Instant, end: Instant): (r: Outcome<ServiceError>)
    ensures r.Pass? <==> end - start < (MaxRentalDays + 1) * SecondsPerDay
    ensures r.Fail? ==> r.error == TooLong
  {
    if WholeDays(start, end) > MaxRentalDays then Fail(TooLong) else Pass
  }

  /** A window that ends before it starts passes the date rule. */
  lemma ReversedWindowPasses(start: Instant, end: Instant)
    requires end <= start
    ensures ValidateRentalDates(start, end).Pass?
  {
  }

  // ---------------------------------------------------------------- availability

  /** Strict overlap of a stored rental with the half-open request window [start, end): a rental
      that ends exactly when the request starts, or starts exactly when it ends, does not overlap. */
  predicate Overlaps(r: Rental, start: Instant, end: Instant)
  {
    r.start < end && r.end > start
  }

  /** A rental takes stock from the request when it is for the same item, holds stock, and overlaps. */
  predicate Conflicts(r: Rental, equipmentId: int, start: Instant, end: Instant)
  {
    r.equipmentId == equipmentId && HoldsStock(r.status) && Overlaps(r, start, end)
  }

  predicate NonNegativeQuantities(rentals: seq<Rental>)
  {
    forall i :: 0 <= i < |rentals| ==> rentals[i].quantity >= 0
  }

  /** The occupied quantity: the sum of the quantities of the conflicting rentals. */
  function Occupied(rentals: seq<Rental>, equipmentId: int, start: Instant, end: Instant): (o: int)
    ensures NonNegativeQuantities(rentals) ==> o >= 0
    ensures (forall i :: 0 <= i < |rentals| ==> !Conflicts(rentals[i], equipmentId, start, end)) ==> o == 0
    decreases |rentals|
  {
    if rentals == [] then 0
    else
      (if Conflicts(rentals[0], equipmentId, start, end) then rentals[0].quantity else 0)
      + Occupied(rentals[1..], equipmentId, start, end)
  }

  /** The occupied quantity of two lists of rentals together is the sum of theirs. */
  lemma {:induction false} OccupiedConcat(a: seq<Rental>, b: seq<Rental>, equipmentId: int,
                                          start: Instant, end: Instant)
    ensures Occupied(a + b, equipmentId, start, end)
            == Occupied(a, equipmentId, start, end) + Occupied(b, equipmentId, start, end)
    decreases |a|
  {
    if a == [] {
      assert a + b == b;
    } else {
      assert (a + b)[1..] == a[1..] + b;
      OccupiedConcat(a[1..], b, equipmentId, start, end);
    }
  }

  /** Inserting one rental anywhere adds its quantity when it conflicts and nothing otherwise. */
  lemma OccupiedInsert(a: seq<Rental>, r: Rental, b: seq<Rental>, equipmentId: int,
                       start: Instant, end: Instant)
    ensures Occupied(a + [r] + b, equipmentId, start, end)
            == Occupied(a + b, equipmentId, start, end)
               + (if Conflicts(r, equipmentId, start, end) then r.quantity else 0)
  {
    OccupiedConcat(a + [r], b, equipmentId, start, end);
    OccupiedConcat(a, [r], equipmentId, start, end);
    OccupiedConcat(a, b, equipmentId, start, end);
    assert Occupied([r], equipmentId, start, end)
           == (if Conflicts(r, equipmentId, start, end) then r.quantity else 0) + Occupied([], equipmentId, start, end);
  }

  /** The availability check. The item is looked up among active items; a request larger than the
      item's whole stock fails at once; otherwise the request fails when it exceeds the total minus
      the occupied quantity, and the failure carries that remainder. On success the item is returned. */
  function CheckEquipmentAvailability(equipment: map<int, Equipment>, rentals: seq<Rental>,
                                      equipmentId: int, quantity: int,
                                      start: Instant, end: Instant): (r: Result<Equipment, ServiceError>)
    ensures ActiveEquipment(equipment, equipmentId).None? ==> r == Err(ItemMissing)
    ensures r.Ok? ==> equipmentId in equipment && r.value == equipment[equipmentId] && r.value.isActive
    ensures r.Ok? ==> quantity + Occupied(rentals, equipmentId, start, end) <= r.value.quantityTotal
    ensures r.Ok? ==> quantity <= r.value.quantityTotal
    ensures ActiveEquipment(equipment, equipmentId).Some? && quantity > equipment[equipmentId].quantityTotal
            ==> r == Err(ExceedsTotalStock(equipment[equipmentId].quantityTotal))
    ensures r.Err? && r.error.InsufficientStock? ==>
              r.error.available == equipment[equipmentId].quantityTotal - Occupied(rentals, equipmentId, start, end)
              && quantity > r.error.available
    ensures ActiveEquipment(equipment, equipmentId).Some?
            && quantity <= equipment[equipmentId].quantityTotal
            && quantity + Occupied(rentals, equipmentId, start, end) <= equipment[equipmentId].quantityTotal
            ==> r.Ok?
  {
    match ActiveEquipment(equipment, equipmentId)
    case None => Err(ItemMissing)
    case Some(item) =>
      if quantity > item.quantityTotal then Err(ExceedsTotalStock(item.quantityTotal))
      else
        var available := item.quantityTotal - Occupied(rentals, equipmentId, start, end);
        if quantity > available then Err(InsufficientStock(available)) else Ok(item)
  }

  /** A booking that ends exactly when the request starts leaves the answer unchanged. */
  lemma BackToBackBookingIgnored(equipment: map<int, Equipment>, rentals: seq<Rental>, r: Rental,
                                 equipmentId: int, quantity: int, start: Instant, end: Instant)
    requires r.end == start
    ensures CheckEquipmentAvailability(equipment, rentals + [r], equipmentId, quantity, start, end)
            == CheckEquipmentAvailability(equipment, rentals, equipmentId, quantity, start, end)
  {
    OccupiedInsert(rentals, r, [], equipmentId, start, end);
    assert rentals + [r] + [] == rentals + [r];
    assert rentals + [] == rentals;
  }

  /** A rental that is completed, cancelled or marked overdue never affects availability. */
  lemma ClosedRentalIgnored(equipment: map<int, Equipment>, a: seq<Rental>, r: Rental, b: seq<Rental>,
                            equipmentId: int, quantity: int, start: Instant, end: Instant)
    requires !HoldsStock(r.status)
    ensures CheckEquipmentAvailability(equipment, a + [r] + b, equipmentId, quantity, start, end)
            == CheckEquipmentAvailability(equipment, a + b, equipmentId, quantity, start, end)
  {
    OccupiedInsert(a, r, b, equipmentId, start, end);
  }

  /** Adding another booking anywhere, of non-negative quantity, never turns a refusal into an
      acceptance. */
  lemma AddingBookingNeverFreesStock(equipment: map<int, Equipment>, a: seq<Rental>, r: Rental,
                                     b: seq<Rental>, equipmentId: int, quantity: int,
                                     start: Instant, end: Instant)
    requires r.quantity >= 0
    requires CheckEquipmentAvailability(equipment, a + b, equipmentId, quantity, start, end).Err?
    ensures CheckEquipmentAvailability(equipment, a + [r] + b, equipmentId, quantity, start, end).Err?
  {
    OccupiedInsert(a, r, b, equipmentId, start, end);
  }

  /** With one unit in stock and one confirmed booking for [June 1, June 8), one unit for
      [June 5, June 10) is refused with none available, and one unit for [June 8, June 10) is granted. */
  lemma HalfOpenWindowExample(item: Equipment, booking: Rental, june1: Instant)
    requires item.isActive && item.quantityTotal == 1
    requires booking.equipmentId == 7 && booking.status == Confirmed && booking.quantity == 1
    requires booking.start == june1 && booking.end == june1 + 7 * SecondsPerDay
    ensures CheckEquipmentAvailability(map[7 := item], [booking], 7, 1,
                                       june1 + 4 * SecondsPerDay, june1 + 9 * SecondsPerDay)
            == Err(InsufficientStock(0))
    ensures CheckEquipmentAvailability(map[7 := item], [booking], 7, 1,
                                       june1 + 7 * SecondsPerDay, june1 + 9 * SecondsPerDay)
            == Ok(item)
  {
    assert Occupied([booking], 7, june1 + 4 * SecondsPerDay, june1 + 9 * SecondsPerDay)
           == 1 + Occupied([], 7, june1 + 4 * SecondsPerDay, june1 + 9 * SecondsPerDay);
    assert Occupied([booking], 7, june1 + 7 * SecondsPerDay, june1 + 9 * SecondsPerDay)
           == 0 + Occupied([], 7, june1 + 7 * SecondsPerDay, june1 + 9 * SecondsPerDay);
  }

  // ---------------------------------------------------------------- capacity at an instant

  /** The stock of one item held at instant `t`: the quantities of the stock-holding rentals of that
      item whose window [start, end) contains `t`. */
  function LoadAt(rentals: seq<Rental>, equipmentId: int, t: Instant): (load: int)
    ensures NonNegativeQuantities(rentals) ==> load >= 0
    decreases |rentals|
  {
    if rentals == [] then 0
    else
      (if rentals[0].equipmentId == equipmentId && HoldsStock(rentals[0].status)
          && rentals[0].start <= t < rentals[0].end
       then rentals[0].quantity else 0)
      + LoadAt(rentals[1..], equipmentId, t)
  }

  /** The stock held at any instant inside a window is at most the occupied quantity of the window. */
  lemma {:induction false} LoadWithinWindowBoundedByOccupied(rentals: seq<Rental>, equipmentId: int,
                                                              start: Instant, end: Instant, t: Instant)
    requires NonNegativeQuantities(rentals)
    requires start <= t < end
    ensures LoadAt(rentals, equipmentId, t) <= Occupied(rentals, equipmentId, start, end)
    decreases |rentals|
  {
    if rentals != [] {
      assert NonNegativeQuantities(rentals[1..]) by {
        forall i | 0 <= i < |rentals[1..]| ensures rentals[1..][i].quantity >= 0 {
          assert rentals[1..][i] == rentals[i + 1];
        }
      }
      LoadWithinWindowBoundedByOccupied(rentals[1..], equipmentId, start, end, t);
    }
  }

  lemma {:induction false} LoadAppend(rentals: seq<Rental>, r: Rental, equipmentId: int, t: Instant)
    ensures LoadAt(rentals + [r], equipmentId, t)
            == LoadAt(rentals, equipmentId, t)
               + (if r.equipmentId == equipmentId && HoldsStock(r.status) && r.start <= t < r.end
                  then r.quantity else 0)
    decreases |rentals|
  {
    if rentals == [] {
      assert LoadAt([r], equipmentId, t)
             == (if r.equipmentId == equipmentId && HoldsStock(r.status) && r.start <= t < r.end
                 then r.quantity else 0) + LoadAt([], equipmentId, t);
    } else {
      assert (rentals + [r])[1..] == rentals[1..] + [r];
      LoadAppend(rentals[1..], r, equipmentId, t);
    }
  }

  /** The capacity invariant: for every item, at every instant, the stock held by its rentals does
      not exceed its total stock. */
  ghost predicate WithinCapacity(equipment: map<int, Equipment>, rentals: seq<Rental>)
  {
    forall id, t :: id in equipment ==> LoadAt(rentals, id, t) <= equipment[id].quantityTotal
  }

  /** A booking the availability check grants keeps the capacity invariant. */
  lemma GrantedBookingKeepsCapacity(equipment: map<int, Equipment>, rentals: seq<Rental>, r: Rental)
    requires WithinCapacity(equipment, rentals) && NonNegativeQuantities(rentals)
    requires r.quantity >= 0
    requires CheckEquipmentAvailability(equipment, rentals, r.equipmentId, r.quantity, r.start, r.end).Ok?
    ensures WithinCapacity(equipment, rentals + [r])
  {
    forall id, t | id in equipment
      ensures LoadAt(rentals + [r], id, t) <= equipment[id].quantityTotal
    {
      LoadAppend(rentals, r, id, t);
      if r.equipmentId == id && HoldsStock(r.status) && r.start <= t < r.end {
        LoadWithinWindowBoundedByOccupied(rentals, id, r.start, r.end, t);
      }
    }
  }

  // ---------------------------------------------------------------- pricing

  /** The service's quote: daily pricing only. */
  datatype RentalPricing = RentalPricing(
    unitPrice: real, quantity: int, deposit: real, totalPrice: real, durationDays: int)

  /** The deposit rate: one fifth of the daily rate per unit. */
  const DepositRate: real := 0.2

  /** Daily pricing: at least one day is charged; the subtotal is rate x days x quantity; the deposit
      is a fifth of the rate per unit; the total includes the deposit. */
  function CalculateRentalPrice(item: Equipment, start: Instant, end: Instant, quantity: int): (p: RentalPricing)
    ensures p.durationDays >= 1
    ensures WholeDays(start, end) >= 1 ==> p.durationDays == WholeDays(start, end)
    ensures WholeDays(start, end) < 1 ==> p.durationDays == 1
    ensures p.unitPrice == item.dailyRate && p.quantity == quantity
    ensures p.deposit == item.dailyRate * DepositRate * (quantity as real)
    ensures p.totalPrice == item.dailyRate * (quantity as real) * (p.durationDays as real + DepositRate)
    ensures item.dailyRate >= 0.0 && quantity >= 0 ==>
              p.totalPrice >= item.dailyRate * (p.durationDays as real) * (quantity as real)
  {
    var durationDays := if WholeDays(start, end) < 1 then 1 else WholeDays(start, end);
    var unitPrice := item.dailyRate;
    var subtotal := unitPrice * (durationDays as real) * (quantity as real);
    var deposit := unitPrice * DepositRate * (quantity as real);
    RentalPricing(unitPrice, quantity, deposit, subtotal + deposit, durationDays)
  }

  /** Deposit and total are proportional to the quantity: q units cost q times one unit. */
  lemma PriceIsLinearInQuantity(item: Equipment, start: Instant, end: Instant, quantity: int)
    ensures CalculateRentalPrice(item, start, end, quantity).totalPrice
            == (quantity as real) * CalculateRentalPrice(item, start, end, 1).totalPrice
    ensures CalculateRentalPrice(item, start, end, quantity).deposit
            == (quantity as real) * CalculateRentalPrice(item, start, end, 1).deposit
  {
  }

  /** Two units for seven days at 100 a day: unit price 100, deposit 40, and a total of 1440, which is
      the 1400 subtotal plus the deposit. */
  lemma WeekForTwoExample(item: Equipment, start: Instant)
    requires item.dailyRate == 100.0
    ensures CalculateRentalPrice(item, start, start + 7 * SecondsPerDay, 2)
            == RentalPricing(100.0, 2, 40.0, 1440.0, 7)
  {
    WholeDaysOfExactSpan(start, 7);
  }

  // ---------------------------------------------------------------- per-user cap

  /** The number of open (stock-holding) rentals of one user. */
  function OpenRentalCount(userId: int, rentals: seq<Rental>): (n: nat)
    ensures n <= |rentals|
    decreases |rentals|
  {
    if rentals == [] then 0
    else
      (if rentals[0].userId == userId && HoldsStock(rentals[0].status) then 1 else 0)
      + OpenRentalCount(userId, rentals[1..])
  }

  lemma {:induction false} OpenRentalCountAppend(userId: int, rentals: seq<Rental>, r: Rental)
    ensures OpenRentalCount(userId, rentals + [r])
            == OpenRentalCount(userId, rentals) + (if r.userId == userId && HoldsStock(r.status) then 1 else 0)
    decreases |rentals|
  {
    if rentals == [] {
      assert OpenRentalCount(userId, [r])
             == (if r.userId == userId && HoldsStock(r.status) then 1 else 0) + OpenRentalCount(userId, []);
    } else {
      assert (rentals + [r])[1..] == rentals[1..] + [r];
      OpenRentalCountAppend(userId, rentals[1..], r);
    }
  }

  /** The eligibility rule: a user already holding 100 or more open rentals is refused. */
  function ValidateUserEligibility(user: User, rentals: seq<Rental>): (r: Outcome<ServiceError>)
    ensures r.Fail? <==> OpenRentalCount(user.id, rentals) >= MaxOpenRentals
    ensures r.Fail? ==> r.error == TooManyOpenRentals
  {
    if OpenRentalCount(user.id, rentals) >= MaxOpenRentals then Fail(TooManyOpenRentals) else Pass
  }

  // ---------------------------------------------------------------- booking creation

  /** The record a successful request creates: PENDING, with the quoted unit price, total and
      deposit; the addresses of the request are not copied and delivery keeps its default. */
  function BookingRecord(req: RentalCreate, user: User, pricing: RentalPricing): Rental
  {
    Rental(user.id, req.equipmentId, req.start, req.end, None, req.quantity,
           pricing.unitPrice, pricing.totalPrice, pricing.deposit, Pending,
           req.notes, None, None, None, false)
  }

  /** The decision of a booking request: dates, then availability, then eligibility, then pricing;
      the first failure is the answer, and a request that passes them all yields the new record. */
  function PlanRental(equipment: map<int, Equipment>, rentals: seq<Rental>, req: RentalCreate,
                      user: User): (r: Result<Rental, ServiceError>)
    ensures ValidateRentalDates(req.start, req.end).Fail? ==> r == Err(TooLong)
    ensures ValidateRentalDates(req.start, req.end).Pass?
            && CheckEquipmentAvailability(equipment, rentals, req.equipmentId, req.quantity, req.start, req.end).Err?
            ==> r == Err(CheckEquipmentAvailability(equipment, rentals, req.equipmentId, req.quantity,
                                                    req.start, req.end).error)
    ensures ValidateRentalDates(req.start, req.end).Pass?
            && CheckEquipmentAvailability(equipment, rentals, req.equipmentId, req.quantity, req.start, req.end).Ok?
            && ValidateUserEligibility(user, rentals).Fail?
            ==> r == Err(TooManyOpenRentals)
    ensures r.Ok? ==> CheckEquipmentAvailability(equipment, rentals, r.value.equipmentId, r.value.quantity,
                                                 r.value.start, r.value.end).Ok?
    ensures r.Ok? ==> OpenRentalCount(user.id, rentals) < MaxOpenRentals
    ensures r.Ok? ==> r.value.status == Pending && r.value.userId == user.id
                      && r.value.equipmentId == req.equipmentId && r.value.quantity == req.quantity
                      && r.value.start == req.start && r.value.end == req.end
    ensures r.Ok? ==> r.value.equipmentId in equipment
                      && r.value.unitPrice == equipment[req.equipmentId].dailyRate
                      && r.value.totalPrice
                         == CalculateRentalPrice(equipment[req.equipmentId], req.start, req.end, req.quantity).totalPrice
                      && r.value.deposit
                         == CalculateRentalPrice(equipment[req.equipmentId], req.start, req.end, req.quantity).deposit
  {
    match ValidateRentalDates(req.start, req.end)
    case Fail(e) => Err(e)
    case Pass =>
      match CheckEquipmentAvailability(equipment, rentals, req.equipmentId, req.quantity, req.start, req.end)
      case Err(e) => Err(e)
      case Ok(item) =>
        match ValidateUserEligibility(user, rentals)
        case Fail(e) => Err(e)
        case Pass =>
          Ok(BookingRecord(req, user, CalculateRentalPrice(item, req.start, req.end, req.quantity)))
  }

  /** A granted request keeps every user at or under the cap: the requester gains exactly one open
      rental, from fewer than 100. */
  lemma GrantedBookingKeepsUserCap(equipment: map<int, Equipment>, rentals: seq<Rental>,
                                   req: RentalCreate, user: User)
    requires PlanRental(equipment, rentals, req, user).Ok?
    ensures OpenRentalCount(user.id, rentals + [PlanRental(equipment, rentals, req, user).value])
            == OpenRentalCount(user.id, rentals) + 1 <= MaxOpenRentals
  {
    OpenRentalCountAppend(user.id, rentals, PlanRental(equipment, rentals, req, user).value);
  }

  /** Bookings granted one after another never overbook an item at any instant, provided the
      store started within capacity and every request asks for a non-negative quantity. */
  lemma GrantedRequestKeepsCapacity(equipment: map<int, Equipment>, rentals: seq<Rental>,
                                    req: RentalCreate, user: User)
    requires WithinCapacity(equipment, rentals) && NonNegativeQuantities(rentals)
    requires req.quantity >= 0
    requires PlanRental(equipment, rentals, req, user).Ok?
    ensures WithinCapacity(equipment, rentals + [PlanRental(equipment, rentals, req, user).value])
    ensures NonNegativeQuantities(rentals + [PlanRental(equipment, rentals, req, user).value])
  {
    var r := PlanRental(equipment, rentals, req, user).value;
    GrantedBookingKeepsCapacity(equipment, rentals, r);
  }

  /** `create_rental`: runs the checks in order, builds the record and stores it. A failure of the
      store rolls the session back and is reported as a server error; nothing is stored then. */
  method CreateRental(db: Db, req: RentalCreate, user: User, storeFails: bool)
    returns (res: Result<int, ServiceError>)
    modifies db
    ensures db.equipment == old(db.equipment) && db.payments == old(db.payments)
    ensures var plan := PlanRental(old(db.equipment), old(db.rentals), req, user);
            && (plan.Err? ==> res == Err(plan.error) && db.rentals == old(db.rentals))
            && (plan.Ok? && storeFails ==> res == Err(PersistenceFailed) && db.rentals == old(db.rentals))
            && (plan.Ok? && !storeFails ==>
                  res == Ok(|old(db.rentals)| + 1) && db.rentals == old(db.rentals) + [plan.value])
  {
    var dates := ValidateRentalDates(req.start, req.end);
    if dates.Fail? {
      return Err(dates.error);
    }
    var availability := CheckEquipmentAvailability(db.equipment, db.rentals, req.equipmentId,
                                                   req.quantity, req.start, req.end);
    if availability.Err? {
      return Err(availability.error);
    }
    var eligibility := ValidateUserEligibility(user, db.rentals);
    if eligibility.Fail? {
      return Err(eligibility.error);
    }
    var pricing := CalculateRentalPrice(availability.value, req.start, req.end, req.quantity);
    var newRental := BookingRecord(req, user, pricing);
    if storeFails {
      return Err(PersistenceFailed);
    }
    db.rentals := db.rentals + [newRental];
    res := Ok(|db.rentals|);
  }

  // ---------------------------------------------------------------- pricing preview

  datatype PricingPreview = PricingPreview(equipmentName: string, equipmentDailyRate: real, pricing: RentalPricing)

  /** The preview runs the date rule and the availability check, not the per-user cap, then quotes. */
  function GetPricingPreview(equipment: map<int, Equipment>, rentals: seq<Rental>, equipmentId: int,
                             start: Instant, end: Instant, quantity: int): (r: Result<PricingPreview, ServiceError>)
    ensures r.Ok? <==> ValidateRentalDates(start, end).Pass?
                       && CheckEquipmentAvailability(equipment, rentals, equipmentId, quantity, start, end).Ok?
    ensures r.Ok? ==> r.value.equipmentDailyRate == r.value.pricing.unitPrice
    ensures r.Ok? ==> equipmentId in equipment && r.value.equipmentName == equipment[equipmentId].name
                      && r.value.pricing == CalculateRentalPrice(equipment[equipmentId], start, end, quantity)
  {
    match ValidateRentalDates(start, end)
    case Fail(e) => Err(e)
    case Pass =>
      match CheckEquipmentAvailability(equipment, rentals, equipmentId, quantity, start, end)
      case Err(e) => Err(e)
      case Ok(item) => Ok(PricingPreview(item.name, item.dailyRate, CalculateRentalPrice(item, start, end, quantity)))
  }

  /** The preview and the booking agree: a request that is granted was previewable, at the price
      stored on the new record; and a previewable request is granted unless the user is at the cap. */
  lemma PreviewAgreesWithBooking(equipment: map<int, Equipment>, rentals: seq<Rental>,
                                 req: RentalCreate, user: User)
    ensures var preview := GetPricingPreview(equipment, rentals, req.equipmentId, req.start, req.end, req.quantity);
            var plan := PlanRental(equipment, rentals, req, user);
            && (plan.Ok? ==> preview.Ok? && preview.value.pricing.totalPrice == plan.value.totalPrice
                             && preview.value.pricing.deposit == plan.value.deposit)
            && (preview.Ok? && OpenRentalCount(user.id, rentals) < MaxOpenRentals ==> plan.Ok?)
            && (preview.Err? ==> plan.Err? && plan.error == preview.error)
  {
  }
}
