/** The persistent store the endpoints work on, held in memory. Equipment rows are keyed by their id.
    Rentals and payments are only ever appended, and their ids are assigned from 1 upward in
    insertion order, so the row with id `k` sits at position `k - 1`; id 0 is never assigned. */
module Database {
  import opened Wrappers
  import opened RentalModel
  import opened PaymentModel
  import opened EquipmentModel

  class Db {
    var equipment: map<int, Equipment>
    var rentals: seq<Rental>
    var payments: seq<Payment>

    constructor (equipment: map<int, Equipment>)
      ensures this.equipment == equipment && rentals == [] && payments == []
    {
      this.equipment := equipment;
      rentals := [];
      payments := [];
    }
  }

  /** The equipment query filtered on id and on the active flag, first row or nothing. */
  function ActiveEquipment(equipment: map<int, Equipment>, id: int): (r: Option<Equipment>)
    ensures r.Some? <==> id in equipment && equipment[id].isActive
    ensures r.Some? ==> r.value == equipment[id]
  {
    if id in equipment && equipment[id].isActive then Some(equipment[id]) else None
  }

  /** The equipment query filtered on id alone, first row or nothing. */
  function EquipmentById(equipment: map<int, Equipment>, id: int): (r: Option<Equipment>)
    ensures r.Some? <==> id in equipment
    ensures r.Some? ==> r.value == equipment[id]
  {
    if id in equipment then Some(equipment[id]) else None
  }

  /** The equipment rows after `quantity_available` of row `id` moved by `delta`; a missing row
      leaves everything as it is. */
  function WithStockAdjusted(equipment: map<int, Equipment>, id: int, delta: int): (m: map<int, Equipment>)
    ensures m.Keys == equipment.Keys
    ensures forall k :: k in equipment && k != id ==> m[k] == equipment[k]
    ensures id in equipment ==>
              m[id] == equipment[id].(quantityAvailable := equipment[id].quantityAvailable + delta)
    ensures delta == 0 ==> m == equipment
  {
    if id in equipment
    then equipment[id := equipment[id].(quantityAvailable := equipment[id].quantityAvailable + delta)]
    else equipment
  }

  /** The query by primary key on a table whose ids are positions from 1 (rentals, payments):
      the first row or nothing. */
  function RowById<T>(rows: seq<T>, id: int): (r: Option<T>)
    ensures r.Some? <==> 1 <= id <= |rows|
    ensures r.Some? ==> r.value == rows[id - 1]
  {
    if 1 <= id <= |rows| then Some(rows[id - 1]) else None
  }

  /** The rental query by a nullable id: a null id matches no row. */
  function RentalByOptionalId(rentals: seq<Rental>, id: Option<int>): (r: Option<Rental>)
    ensures r.Some? <==> id.Some? && 1 <= id.value <= |rentals|
    ensures r.Some? ==> r.value == rentals[id.value - 1]
  {
    if id.Some? then RowById(rentals, id.value) else None
  }
}
