/** The request body for a new rental and its two field validators. */
module RentalSchemas {
  import opened Wrappers
  import opened Timestamps

  const EndNotAfterStartMessage: string := "Data końca musi być po dacie rozpoczęcia"
  const NonPositiveQuantityMessage: string := "Ilość musi być większa od 0"

  /** A validated request. `quantity` defaults to 1 and `deliveryRequired` to false. */
  datatype RentalCreate = RentalCreate(
    equipmentId: int,
    start: Instant,
    end: Instant,
    quantity: int,
    notes: Option<string>,
    pickupAddress: Option<string>,
    returnAddress: Option<string>,
    deliveryRequired: bool)

  /** The end-date validator. `start` is the start date as already parsed, absent when the start
      date itself failed to parse; only a parsed start date is compared with. */
  function ValidateEndDate(start: Option<Instant>, end: Instant): (r: Result<Instant, string>)
    ensures r.Ok? ==> r.value == end
    ensures r.Err? <==> start.Some? && end <= start.value
    ensures r.Err? ==> r.error == EndNotAfterStartMessage
  {
    if start.Some? && end <= start.value then Err(EndNotAfterStartMessage) else Ok(end)
  }

  /** The quantity validator: only a positive quantity passes, unchanged. */
  function ValidateQuantity(quantity: int): (r: Result<int, string>)
    ensures r.Ok? <==> quantity > 0
    ensures r.Ok? ==> r.value == quantity
    ensures r.Err? ==> r.error == NonPositiveQuantityMessage
  {
    if quantity <= 0 then Err(NonPositiveQuantityMessage) else Ok(quantity)
  }

  /** Builds a request from its parsed fields. An omitted quantity or delivery flag takes its default,
      which is not validated; every failing validator contributes its message, in field order. */
  function ParseRentalCreate(equipmentId: int, start: Instant, end: Instant, quantity: Option<int>,
                             notes: Option<string>, pickupAddress: Option<string>,
                             returnAddress: Option<string>, deliveryRequired: Option<bool>)
    : (r: Result<RentalCreate, seq<string>>)
    ensures r.Ok? ==> r.value.start < r.value.end && r.value.quantity > 0
    ensures r.Ok? ==> r.value.start == start && r.value.end == end && r.value.equipmentId == equipmentId
    ensures r.Ok? <==> start < end && (quantity.None? || quantity.value > 0)
    ensures r.Ok? && quantity.None? ==> r.value.quantity == 1
    ensures r.Ok? && deliveryRequired.None? ==> !r.value.deliveryRequired
    ensures r.Err? ==> 1 <= |r.error| <= 2
  {
    var endCheck := ValidateEndDate(Some(start), end);
    var quantityCheck := if quantity.Some? then ValidateQuantity(quantity.value) else Ok(1);
    var errors := (if endCheck.Err? then [endCheck.error] else [])
                  + (if quantityCheck.Err? then [quantityCheck.error] else []);
    if errors == [] then
      Ok(RentalCreate(equipmentId, start, endCheck.value, quantityCheck.value, notes,
                      pickupAddress, returnAddress,
                      if deliveryRequired.Some? then deliveryRequired.value else false))
    else Err(errors)
  }

  /** A quantity of zero is rejected with the "greater than 0" message. */
  lemma ZeroQuantityRejected()
    ensures ValidateQuantity(0) == Err(NonPositiveQuantityMessage)
  {
  }
}
