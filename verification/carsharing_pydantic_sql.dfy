/**
 * carsharing_pydantic_sql.py: get_cars and add_car, each opening its own
 * session on the database; the session is a parameter here. Its
 * get_car_by_id reads a list `db` the file never defines and is not part of
 * this model.
 */
module CarsharingPydanticSql {
  import opened Schemas
  import opened CarStore

  /** get_cars: the stored cars with that size (if truthy) and that door count (if truthy). */
  function GetCars(size: Option<string>, doors: Option<int>, session: Session): (r: set<Car>)
    reads session
    ensures forall c :: c in r <==>
      && c in session.cars.Values
      && (SizeGiven(size) ==> c.size == size.value)
      && (DoorsGiven(doors) ==> c.doors == doors.value)
  {
    Query(session.cars, size, doors)
  }

  /** add_car: stores a new row with the input's four fields, no trips and a primary key not used before. */
  method AddCar(carInput: CarInput, session: Session) returns (car: Car)
    requires session.Valid()
    modifies session
    ensures session.Valid()
    ensures car.id !in old(session.cars) && car.trips == []
    ensures car.size == carInput.size && car.fuel == carInput.fuel
    ensures car.doors == carInput.doors && car.transmission == carInput.transmission
    ensures session.cars == old(session.cars)[car.id := car]
  {
    ghost var bound := Above(session.cars.Keys);
    assert bound !in session.cars;
    var id :| id !in session.cars;
    car := FromInput(carInput, id);
    session.cars := session.cars[id := car];
  }
}
