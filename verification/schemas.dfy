/**
 * The records the car-sharing handlers exchange: the pydantic input/output
 * shapes (schemas_nested.py, schemas.py), the SQL table rows (schemas.py),
 * and the error outcomes the handlers raise.
 */
module Schemas {

  datatype Option<+T> = None | Some(value: T)

  /** The two failures the handlers raise: HTTP 404 and BadTripException. */
  datatype Error = NotFound | BadTrip

  datatype Result<+T> = Ok(value: T) | Err(error: Error)

  /** Request body for a new trip. */
  datatype TripInput = TripInput(start: int, end: int, description: string)

  /** A trip as the list-backed handlers store it inside its car. */
  datatype TripOutput = TripOutput(id: int, start: int, end: int, description: string)

  /** Request body for a new or replaced car; fuel and transmission may be null. */
  datatype CarInput = CarInput(size: string, fuel: Option<string>, doors: int, transmission: Option<string>)

  /** A car as the list-backed handlers store it. */
  datatype CarOutput = CarOutput(
    id: int,
    size: string,
    fuel: Option<string>,
    doors: int,
    transmission: Option<string>,
    trips: seq<TripOutput>)

  /** A row of the trip table; car_id refers to the owning car. */
  datatype Trip = Trip(id: int, carId: int, start: int, end: int, description: string)

  /** A row of the car table, with the trips its relationship loads. */
  datatype Car = Car(
    id: int,
    size: string,
    fuel: Option<string>,
    doors: int,
    transmission: Option<string>,
    trips: seq<Trip>)

  /** The authenticated caller; its password hash is not modelled. */
  datatype User = User(id: int, username: string)

  /** A CarInput built with only the required fields: fuel and transmission take their defaults. */
  function NewCarInput(size: string, doors: int): CarInput {
    CarInput(size, Some("electric"), doors, Some("auto"))
  }

  /** Python truthiness of the `size: str | None` query parameter. */
  predicate SizeGiven(size: Option<string>) {
    size.Some? && size.value != ""
  }

  /** Python truthiness of the `doors: int | None` query parameter. */
  predicate DoorsGiven(doors: Option<int>) {
    doors.Some? && doors.value != 0
  }
}
