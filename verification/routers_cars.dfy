/**
 * routers/cars.py: the car handlers of the router, over the database the
 * injected session stands for. add_car takes the user the authentication
 * dependency resolved; add_trip rejects a trip that ends before it starts.
 */
module RoutersCars {
  import opened Schemas
  import opened CarStore

  /** get_cars: the stored cars with that size (if truthy) and that door count (if truthy). */
  function GetCars(size: Option<string>, doors: Option<int>, session: Session): (r: set<Car>)
    reads session
    ensures forall c :: c in r <==>
      && c in session.cars.Values
      && (SizeGiven(size) ==> c.size == size.value)
      && (DoorsGiven(doors) ==> c.doors == doors.value)
  {
    Query(session.cars, size, doors)
  }

  /** get_car_by_id: `session.get(Car, id)`, NotFound when there is no such row. */
  function GetCarById(id: int, session: Session): (r: Result<Car>)
    reads session
    ensures r.Ok? <==> id in session.cars
    ensures r.Ok? ==> r.value == session.cars[id]
    ensures r.Err? ==> r.error == NotFound
    ensures r.Ok? && session.Valid() ==> r.value.id == id && forall t :: t in r.value.trips ==> t.carId == id
  {
    if id in session.cars then Ok(session.cars[id]) else Err(NotFound)
  }

  /**
   * add_car: stores a new row with the input's four fields, no trips and a
   * primary key not used before, and returns it. The user is the caller the
   * authentication dependency resolved; without one the handler never runs.
   */
  method AddCar(carInput: CarInput, session: Session, user: User) returns (car: Car)
    requires session.Valid()
    modifies session
    ensures session.Valid()
    ensures car.id !in old(session.cars) && car.trips == []
    ensures car.size == carInput.size && car.fuel == carInput.fuel
    ensures car.doors == carInput.doors && car.transmission == carInput.transmission
    ensures session.cars == old(session.cars)[car.id := car]
    ensures GetCarById(car.id, session) == Ok(car)
  {
    ghost var bound := Above(session.cars.Keys);
    assert bound !in session.cars;
    var id :| id !in session.cars;
    car := FromInput(carInput, id);
    session.cars := session.cars[id := car];
  }

  /** remove_car: deletes the row; NotFound and no change when it is absent. */
  method RemoveCar(id: int, session: Session) returns (r: Result<()>)
    requires session.Valid()
    modifies session
    ensures session.Valid()
    ensures id in old(session.cars) ==> r == Ok(()) && session.cars == old(session.cars) - {id}
    ensures id !in old(session.cars) ==> r == Err(NotFound) && session.cars == old(session.cars)
    ensures GetCarById(id, session) == Err(NotFound)
  {
    if id in session.cars {
      session.cars := session.cars - {id};
      r := Ok(());
    } else {
      r := Err(NotFound);
    }
  }

  /**
   * change_car: overwrites fuel, transmission, size and doors of the row,
   * keeping its id, its trips and every other row; NotFound when absent.
   */
  method ChangeCar(id: int, newData: CarInput, session: Session) returns (r: Result<Car>)
    requires session.Valid()
    modifies session
    ensures session.Valid()
    ensures id !in old(session.cars) ==> r == Err(NotFound) && session.cars == old(session.cars)
    ensures id in old(session.cars) ==>
      && r.Ok? && session.cars == old(session.cars)[id := r.value]
      && r.value.id == id && r.value.trips == old(session.cars)[id].trips
      && r.value.size == newData.size && r.value.fuel == newData.fuel
      && r.value.doors == newData.doors && r.value.transmission == newData.transmission
  {
    if id in session.cars {
      var car := Changed(session.cars[id], newData);
      session.cars := session.cars[id := car];
      r := Ok(car);
    } else {
      r := Err(NotFound);
    }
  }

  /**
   * add_trip: NotFound when the car is absent; BadTrip when the trip ends
   * before it starts; otherwise a trip row with `car_id` set to the car and a
   * fresh primary key becomes the last of the car's trips. Both failures
   * leave the store unchanged.
   */
  method AddTrip(carId: int, tripInput: TripInput, session: Session) returns (r: Result<Trip>)
    requires session.Valid()
    modifies session
    ensures session.Valid()
    ensures carId !in old(session.cars) ==> r == Err(NotFound) && session.cars == old(session.cars)
    ensures carId in old(session.cars) && tripInput.end < tripInput.start ==>
      r == Err(BadTrip) && session.cars == old(session.cars)
    ensures carId in old(session.cars) && tripInput.end >= tripInput.start ==>
      && r.Ok? && r.value.carId == carId && r.value.id !in old(session.TripIds())
      && r.value.start == tripInput.start && r.value.end == tripInput.end
      && r.value.description == tripInput.description
      && session.cars == old(session.cars)[carId := old(session.cars)[carId].(trips := old(session.cars)[carId].trips + [r.value])]
  {
    if carId in session.cars {
      var car := session.cars[carId];
      ghost var bound := Above(session.TripIds());
      assert bound !in session.TripIds();
      var tripId :| tripId !in session.TripIds();
      var newTrip := Trip(tripId, carId, tripInput.start, tripInput.end, tripInput.description);
      if newTrip.end < newTrip.start {
        r := Err(BadTrip);
      } else {
        session.cars := session.cars[carId := car.(trips := car.trips + [newTrip])];
        r := Ok(newTrip);
      }
    } else {
      r := Err(NotFound);
    }
  }

  /**
   * A walk-through: an authorised user creates a car, a trip
   * ending before its start is refused, a proper trip is added, the car is
   * deleted and can no longer be found.
   */
  method CreateTripDeleteScenario(user: User)
  {
    var session := new Session(map[]);
    var car := AddCar(CarInput("m", Some("hybrid"), 5, Some("manual")), session, user);
    assert car.trips == [] && car.doors == 5;
    var bad := AddTrip(car.id, TripInput(10, 5, "x"), session);
    assert bad == Err(BadTrip) && session.cars[car.id].trips == [];
    var good := AddTrip(car.id, TripInput(5, 10, "x"), session);
    assert good.Ok? && |session.cars[car.id].trips| == 1;
    var removed := RemoveCar(car.id, session);
    assert removed == Ok(()) && GetCarById(car.id, session) == Err(NotFound);
  }

  /**
   * The call test/test_add_car.py makes: a car posted with only doors 2 and
   * size "xl" comes back with those values; its fuel and transmission are the
   * CarInput defaults (schemas.py lines 57 and 59).
   */
  method AddCarWithDefaults(user: User)
  {
    var session := new Session(map[]);
    var car := AddCar(NewCarInput("xl", 2), session, user);
    assert car.doors == 2 && car.size == "xl";
    assert car.fuel == Some("electric") && car.transmission == Some("auto");
  }
}
