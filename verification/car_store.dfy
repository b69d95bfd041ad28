/**
 * The database behind the SQLModel session of routers/cars.py,
 * carsharing_di_sql.py and carsharing_pydantic_sql.py: car rows keyed by
 * primary key, each with the trip rows its relationship loads. The query
 * that get_cars composes and the choice of a fresh primary key are defined
 * here once.
 */
module CarStore {
  import opened Schemas

  /** Every row sits under its own id and owns only trips that point back to it. */
  ghost predicate RowsValid(cars: map<int, Car>) {
    forall id :: id in cars ==> cars[id].id == id && forall t :: t in cars[id].trips ==> t.carId == id
  }

  class Session {
    var cars: map<int, Car>

    ghost predicate Valid()
      reads this
    {
      RowsValid(cars)
    }

    constructor(initial: map<int, Car>)
      requires RowsValid(initial)
      ensures Valid() && cars == initial
    {
      cars := initial;
    }

    /** The primary keys of all trip rows. */
    function TripIds(): set<int>
      reads this
    {
      set id, t | id in cars && t in cars[id].trips :: t.id
    }
  }

  /** One `query.where(...)` clause of get_cars. */
  datatype Condition = SizeEq(size: string) | DoorsEq(doors: int)

  predicate Holds(k: Condition, c: Car) {
    match k
    case SizeEq(s) => c.size == s
    case DoorsEq(d) => c.doors == d
  }

  function Where(rows: set<Car>, k: Condition): set<Car> {
    set c | c in rows && Holds(k, c)
  }

  /**
   * get_cars' query, built clause by clause: `select(Car)`, then a size
   * clause when size is truthy, then a doors clause when doors is truthy.
   * The result is every stored car meeting both conditions that apply; doors
   * is compared with `==`, not `>=`.
   */
  function Query(cars: map<int, Car>, size: Option<string>, doors: Option<int>): (r: set<Car>)
    ensures forall c :: c in r <==>
      && c in cars.Values
      && (SizeGiven(size) ==> c.size == size.value)
      && (DoorsGiven(doors) ==> c.doors == doors.value)
  {
    var query := cars.Values;
    var query := if SizeGiven(size) then Where(query, SizeEq(size.value)) else query;
    if DoorsGiven(doors) then Where(query, DoorsEq(doors.value)) else query
  }

  /** The two filters compose: both together select the cars each selects alone. */
  lemma QueryIsConjunction(cars: map<int, Car>, size: Option<string>, doors: Option<int>)
    ensures Query(cars, size, doors) == Query(cars, size, None) * Query(cars, None, doors)
    ensures Query(cars, None, None) == cars.Values
  {
    var both, bySize, byDoors := Query(cars, size, doors), Query(cars, size, None), Query(cars, None, doors);
    assert forall c :: c in both <==> c in bySize && c in byDoors;
    var all := Query(cars, None, None);
    assert forall c :: c in all <==> c in cars.Values;
  }

  /** A set of ids with no member has none: the one step of set reasoning the fresh-id proof needs. */
  lemma NoMemberIsEmpty(ids: set<int>)
    requires forall x :: x !in ids
    ensures ids == {}
  {
    assert forall x :: x in ids <==> x in {};
  }

  lemma NonEmptyHasMember(ids: set<int>)
    requires ids != {}
    ensures exists x :: x in ids
  {
    if forall x :: x !in ids {
      NoMemberIsEmpty(ids);
      assert false;
    }
  }

  /** A number above every id in the set, so a fresh primary key always exists. */
  ghost function Above(ids: set<int>): (r: int)
    ensures forall x :: x in ids ==> x < r
    decreases |ids|
  {
    if ids == {} then 0
    else
      NonEmptyHasMember(ids);
      var x :| x in ids;
      var rest := Above(ids - {x});
      assert forall y :: y in ids ==> y == x || y in ids - {x};
      if rest > x then rest else x + 1
  }

  /** `Car.from_orm(car_input)` once the database has given it the primary key `id`. */
  function FromInput(input: CarInput, id: int): Car {
    Car(id, input.size, input.fuel, input.doors, input.transmission, [])
  }

  /** change_car's assignments to `car.fuel`, `car.transmission`, `car.size` and `car.doors`. */
  function Changed(car: Car, input: CarInput): Car {
    car.(fuel := input.fuel, transmission := input.transmission, size := input.size, doors := input.doors)
  }
}
