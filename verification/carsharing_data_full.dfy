/**
 * carsharing_data_full.py: the module-level `db` list of cars with get_cars,
 * get_car_by_id, add_car, remove_car and change_car. `db` is the field of an
 * App object whose constructor receives the list `load_db()` would return.
 */
module CarsharingDataFull {
  import opened Schemas
  import opened CarList

  class App {
    var db: seq<CarOutput>

    constructor(initial: seq<CarOutput>)
      ensures db == initial
    {
      db := initial;
    }

    /**
     * get_cars: with a truthy size the cars of exactly that size, else with a
     * truthy doors the cars with at least that many doors, else all of db;
     * always in db order.
     */
    function GetCars(size: Option<string>, doors: Option<int>): (r: seq<CarOutput>)
      reads this
      ensures IsSubsequence(r, db)
      ensures forall c :: multiset(r)[c] == if Selects(size, doors, c) then multiset(db)[c] else 0
      ensures !SizeGiven(size) && !DoorsGiven(doors) ==> r == db
    {
      ListCars(db, size, doors)
    }

    /** get_car_by_id: the first car with the id, or NotFound exactly when none has it. */
    function GetCarById(id: int): (r: Result<CarOutput>)
      reads this
      ensures r.Ok? ==> exists i :: IsFirstWithId(db, id, i) && r.value == db[i]
      ensures r.Err? <==> forall c :: c in db ==> c.id != id
      ensures r.Err? ==> r.error == NotFound
    {
      Lookup(db, id)
    }

    /** add_car: appends the input's four fields under id `len(db) + 1`, without trips. */
    method AddCar(car: CarInput) returns (newCar: CarOutput)
      modifies this
      ensures newCar.id == |old(db)| + 1 && newCar.trips == []
      ensures newCar.size == car.size && newCar.fuel == car.fuel
      ensures newCar.doors == car.doors && newCar.transmission == car.transmission
      ensures db == old(db) + [newCar]
    {
      newCar := FromInput(car, |db| + 1);
      db := db + [newCar];
    }

    /** remove_car: drops the first car with the id; NotFound and no change when there is none. */
    method RemoveCar(id: int) returns (r: Result<()>)
      modifies this
      ensures match FirstIndex(old(db), id)
              case None => r == Err(NotFound) && db == old(db)
              case Some(i) => r == Ok(()) && db == old(db)[..i] + old(db)[i + 1..]
    {
      IdMatchesHead(db, id);
      var matches := Filter(db, IdIs(id));
      if |matches| > 0 {
        var car := matches[0];
        RemoveFirstWithId(db, id, FirstIndex(db, id).value);
        db := RemoveValue(db, car);
        r := Ok(());
      } else {
        r := Err(NotFound);
      }
    }

    /**
     * change_car: overwrites fuel, transmission, size and doors of the first
     * car with the id, keeping its id and trips and every other car.
     */
    method ChangeCar(id: int, newData: CarInput) returns (r: Result<CarOutput>)
      modifies this
      ensures match FirstIndex(old(db), id)
              case None => r == Err(NotFound) && db == old(db)
              case Some(i) =>
                && r.Ok? && db == old(db)[i := r.value]
                && r.value.id == old(db)[i].id && r.value.trips == old(db)[i].trips
                && r.value.size == newData.size && r.value.fuel == newData.fuel
                && r.value.doors == newData.doors && r.value.transmission == newData.transmission
    {
      match FirstIndex(db, id)
      case None =>
        r := Err(NotFound);
      case Some(i) =>
        var car := Changed(db[i], newData);
        db := db[i := car];
        r := Ok(car);
    }
  }
}
