/** The rental record: its six statuses, its stored fields with their column defaults, and the two
    read-only properties the record computes (length in days and overdue detection). */
module RentalModel {
  import opened Wrappers
  import opened Timestamps

  datatype RentalStatus = Pending | Confirmed | Active | Completed | Cancelled | Overdue

  const AllRentalStatuses: set<RentalStatus> := {Pending, Confirmed, Active, Completed, Cancelled, Overdue}

  /** The status enumeration has exactly six members. */
  lemma RentalStatusesAreExactlySix()
    ensures forall s: RentalStatus :: s in AllRentalStatuses
    ensures |AllRentalStatuses| == 6
  {
    var five := {Pending, Confirmed, Active, Completed, Cancelled};
    var four := {Pending, Confirmed, Active, Completed};
    var three := {Pending, Confirmed, Active};
    assert |{Pending, Confirmed}| == 2;
    assert three == {Pending, Confirmed} + {Active};
    assert four == three + {Completed};
    assert five == four + {Cancelled};
    assert AllRentalStatuses == five + {Overdue};
    forall s: RentalStatus ensures s in AllRentalStatuses {
      assert s.Pending? || s.Confirmed? || s.Active? || s.Completed? || s.Cancelled? || s.Overdue?;
    }
  }

  /** The statuses in which a rental reserves stock for the availability check and counts toward
      the per-user cap on open rentals. */
  predicate HoldsStock(s: RentalStatus)
  {
    s == Pending || s == Confirmed || s == Active
  }

  datatype Rental = Rental(
    userId: int,
    equipmentId: int,
    start: Instant,
    end: Instant,
    actualReturn: Option<Instant>,
    quantity: int,
    unitPrice: real,
    totalPrice: real,
    deposit: real,
    status: RentalStatus,
    notes: Option<string>,
    adminNotes: Option<string>,
    pickupAddress: Option<string>,
    returnAddress: Option<string>,
    deliveryRequired: bool)

  /** A record built with only its required columns: every other column takes its default
      (quantity 1, deposit 0, status PENDING, no delivery, no notes or addresses). */
  function NewRental(userId: int, equipmentId: int, start: Instant, end: Instant,
                     unitPrice: real, totalPrice: real): (r: Rental)
    ensures r.userId == userId && r.equipmentId == equipmentId && r.start == start && r.end == end
    ensures r.unitPrice == unitPrice && r.totalPrice == totalPrice && r.actualReturn.None?
    ensures r.status == Pending && r.quantity == 1 && r.deposit == 0.0 && !r.deliveryRequired
    ensures r.notes.None? && r.adminNotes.None? && r.pickupAddress.None? && r.returnAddress.None?
    ensures HoldsStock(r.status)
    ensures forall now :: !IsOverdue(r, now)
  {
    Rental(userId, equipmentId, start, end, None, 1, unitPrice, totalPrice, 0.0, Pending,
           None, None, None, None, false)
  }

  /** Length of the rental in whole days: up to the actual return when one is recorded,
      otherwise up to the agreed end. */
  function DurationDays(r: Rental): (d: int)
    ensures r.actualReturn.None? ==> d * SecondsPerDay <= r.end - r.start < (d + 1) * SecondsPerDay
    ensures r.actualReturn.Some? ==>
              d * SecondsPerDay <= r.actualReturn.value - r.start < (d + 1) * SecondsPerDay
  {
    if r.actualReturn.Some? then WholeDays(r.start, r.actualReturn.value)
    else WholeDays(r.start, r.end)
  }

  /** A rental from June 1 to June 8 with no return recorded lasts seven days. */
  lemma DurationOfOneWeek(r: Rental)
    requires r.actualReturn.None? && r.end == r.start + 7 * SecondsPerDay
    ensures DurationDays(r) == 7
  {
    WholeDaysOfExactSpan(r.start, 7);
  }

  /** A recorded return decides the length, whatever the agreed end was. */
  lemma DurationFollowsReturn(r: Rental, returned: Instant, n: int)
    requires returned == r.start + n * SecondsPerDay
    ensures DurationDays(r.(actualReturn := Some(returned))) == n
  {
    WholeDaysOfExactSpan(r.start, n);
  }

  /** A rental is overdue when it is confirmed or active and the current time is past its end. */
  function IsOverdue(r: Rental, now: Instant): (b: bool)
    ensures b ==> now > r.end
    ensures b ==> r.status == Active || r.status == Confirmed
    ensures (r.status == Active || r.status == Confirmed) && now > r.end ==> b
  {
    r.status in {Active, Confirmed} && now > r.end
  }

  /** Pending, completed, cancelled and stored-overdue rentals are never reported overdue. */
  lemma NeverOverdueOutsideConfirmedOrActive(r: Rental, now: Instant)
    requires r.status in {Pending, Completed, Cancelled, Overdue}
    ensures !IsOverdue(r, now)
  {
  }

  /** Overdue-ness persists as time passes. */
  lemma OverdueStaysOverdue(r: Rental, now: Instant, later: Instant)
    requires IsOverdue(r, now) && now <= later
    ensures IsOverdue(r, later)
  {
  }
}
