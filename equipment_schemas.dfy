/** The catalogue request bodies: creation with its daily-rate validator, and the partial update. */
module EquipmentSchemas {
  import opened Wrappers
  import opened EquipmentModel

  const NonPositiveRateMessage: string := "Cena dzienna musi być większa od 0"

  /** A creation request: weekly and monthly rates are optional and not validated; quantity_total
      defaults to 1, requires_license to false and min_age to 18. */
  datatype EquipmentCreate = EquipmentCreate(
    name: string,
    dailyRate: real,
    weeklyRate: Option<real>,
    monthlyRate: Option<real>,
    quantityTotal: int,
    requiresLicense: bool,
    minAge: int)

  function NewEquipmentCreate(name: string, dailyRate: real): (c: EquipmentCreate)
    ensures c.quantityTotal == 1 && !c.requiresLicense && c.minAge == 18
    ensures c.weeklyRate.None? && c.monthlyRate.None?
  {
    EquipmentCreate(name, dailyRate, None, None, 1, false, 18)
  }

  /** The daily-rate validator: only a positive rate passes, unchanged. */
  function ValidateDailyRate(rate: real): (r: Result<real, string>)
    ensures r.Ok? <==> rate > 0.0
    ensures r.Ok? ==> r.value == rate
  {
    if rate <= 0.0 then Err(NonPositiveRateMessage) else Ok(rate)
  }
}
