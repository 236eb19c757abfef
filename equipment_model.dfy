/** The equipment record: its status enumeration, the stock counters with their defaults, and the
    availability property the record computes. */
module EquipmentModel {
  import opened Wrappers

  datatype EquipmentStatus = Available | Rented | Maintenance | Damaged | Retired

  /** The columns the rental and payment logic reads or writes. The record declares no
      constraint between `quantityAvailable` and `quantityTotal`: each is a plain integer. */
  datatype Equipment = Equipment(
    name: string,
    dailyRate: real,
    weeklyRate: Option<real>,
    monthlyRate: Option<real>,
    status: EquipmentStatus,
    quantityTotal: int,
    quantityAvailable: int,
    isActive: bool)

  /** An item can be rented when its status is AVAILABLE and at least one unit is in stock. */
  function IsAvailable(e: Equipment): (b: bool)
    ensures b ==> e.status == Available
    ensures b ==> e.quantityAvailable > 0
    ensures e.status == Available && e.quantityAvailable > 0 ==> b
  {
    e.status == Available && e.quantityAvailable > 0
  }

  /** An item built with only its required columns: status AVAILABLE, one unit in total, one unit
      available, active, no weekly or monthly rate. Such an item is available. */
  function NewEquipment(name: string, dailyRate: real): (e: Equipment)
    ensures e.quantityTotal == 1 && e.quantityAvailable == 1 && e.isActive
    ensures IsAvailable(e)
  {
    Equipment(name, dailyRate, None, None, Available, 1, 1, true)
  }

  /** Nothing ties the two counters together: an item may report more available units than it owns
      and still be available. */
  lemma CountersAreUnconstrained()
    ensures exists e: Equipment :: e.quantityAvailable > e.quantityTotal && IsAvailable(e)
  {
    var e := NewEquipment("", 1.0).(quantityAvailable := 2);
    assert e.quantityAvailable > e.quantityTotal && IsAvailable(e);
  }
}
