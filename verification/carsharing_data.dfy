/**
 * carsharing_data.py: get_cars and get_car_by_id over a constant list of
 * nine cars. Nothing is ever changed, so the list is a constant and both
 * handlers are functions of their query parameters.
 */
module CarsharingData {
  import opened Schemas
  import opened CarList

  /** One of the literal dicts; they carry no trips. */
  function Record(id: int, size: string, fuel: string, doors: int, transmission: string): CarOutput {
    CarOutput(id, size, Some(fuel), doors, Some(transmission), [])
  }

  const Db: seq<CarOutput> := [
    Record(1, "s", "gasoline", 3, "auto"),
    Record(2, "s", "electric", 3, "auto"),
    Record(3, "s", "gasoline", 5, "manual"),
    Record(4, "m", "electric", 3, "auto"),
    Record(5, "m", "hybrid", 5, "auto"),
    Record(6, "m", "gasoline", 5, "manual"),
    Record(7, "l", "diesel", 5, "manual"),
    Record(8, "l", "electric", 5, "auto"),
    Record(9, "l", "hybrid", 5, "auto")
  ]

  /** The list holds nine cars whose ids are 1..9 in order, hence distinct. */
  lemma InitialDb()
    ensures |Db| == 9
    ensures forall k :: 0 <= k < |Db| ==> Db[k].id == k + 1
    ensures DistinctIds(Db) && IdsWithinLength(Db)
  {
  }

  /**
   * get_cars: with a truthy size the cars of exactly that size, else with a
   * truthy doors the cars with at least that many doors, else the whole list;
   * always in list order.
   */
  function GetCars(size: Option<string>, doors: Option<int>): (r: seq<CarOutput>)
    ensures IsSubsequence(r, Db)
    ensures forall c :: multiset(r)[c] == if Selects(size, doors, c) then multiset(Db)[c] else 0
    ensures !SizeGiven(size) && !DoorsGiven(doors) ==> r == Db
  {
    ListCars(Db, size, doors)
  }

  /** get_car_by_id: the car with that id, which exists exactly for ids 1..9. */
  function GetCarById(id: int): (r: Result<CarOutput>)
    ensures r.Ok? <==> 1 <= id <= 9
    ensures r.Ok? ==> r.value == Db[id - 1] && r.value.id == id
    ensures r.Err? ==> r.error == NotFound
  {
    if 1 <= id <= 9 then LookupAt(Db, id, id - 1); Lookup(Db, id)
    else Lookup(Db, id)
  }
}
