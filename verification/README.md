# Car-sharing handlers in Dafny

This project models the car and trip handlers of a FastAPI car-sharing service. The handlers come in two families.

**List-backed handlers.** These are `carsharing_data.py`, `carsharing_data_full.py`, `carsharing_pydantic.py` and `carsharing_pydantic_nested.py`. They keep a module-level list `db` of cars.
- `get_cars(size, doors)`: a truthy `size` keeps the cars of exactly that size and ignores `doors`. Otherwise a truthy `doors` keeps the cars with at least that many doors. Otherwise the whole list comes back.
- `get_car_by_id`: returns the first car with the id, or a 404.
- `add_car`: appends a car with id `len(db) + 1`.
- `remove_car`: removes the first car with the id.
- `change_car`: overwrites four fields of that car.
- `add_trip` (nested variant only): appends a trip numbered `len(car.trips) + 1`.

**Store-backed handlers.** These are `routers/cars.py`, `carsharing_di_sql.py` and `carsharing_pydantic_sql.py`. They work through a SQLModel session.
- `get_cars` is the AND of `size ==` and `doors ==`. Each condition applies only when its argument is truthy.
- `session.get` either finds a row by primary key or the handler reports a 404.
- A new row receives a primary key that no row uses yet.
- `add_trip` in `routers/cars.py` raises `BadTripException` when the trip ends before it starts, before anything is stored.

## Files and modules

- `schemas.dfy` (module `Schemas`)
  - The records: `TripInput`, `TripOutput`, `CarInput`, `CarOutput`, the table rows `Trip` and `Car`, and `User`.
  - `Option` stands for `str | None`. `fuel` defaults to `"electric"` and `transmission` to `"auto"` (`NewCarInput`).
  - The `Result` datatype holds the two failures, `NotFound` (the HTTP 404) and `BadTrip`.
  - The truthiness of the query parameters (`SizeGiven`, `DoorsGiven`).
- `car_list.dfy` (module `CarList`)
  - The list-backed handlers run the same code, and this module defines it once: the comprehensions (`Filter`, `ListCars`, `Lookup`), Python's `list.remove` (`RemoveValue`) and the record updates.
  - It also holds the lemmas that say what these mean. `Selects` defines get_cars per car, and the contract of `ListCars` states the result against it. `IsSubsequence` states "in db order".
- `carsharing_data.dfy`: the constant nine-car list and the two read-only handlers, as functions.
- `carsharing_data_full.dfy`, `carsharing_pydantic.dfy`, `carsharing_pydantic_nested.dfy`
  - In each, a class `App` holds `db: seq<CarOutput>`. The constructor receives the initial list.
  - The read-only handlers are functions. The mutating handlers are methods, and their `ensures` give the whole new `db`.
- `car_store.dfy` (module `CarStore`)
  - The database is a class `Session` holding `cars: map<int, Car>`. Each row lists its trips.
  - The `get_cars` query is built clause by clause (`Query`).
  - `Above` shows that an unused primary key always exists.
- `routers_cars.dfy`, `carsharing_di_sql.dfy`, `carsharing_pydantic_sql.dfy`
  - The handlers are module-level members that take the session as a parameter, as the source's `session = Depends(get_session)` does.
  - `routers_cars.dfy` also has two client methods. One walks through create, bad trip, good trip, delete and lookup. The other makes the call of `test/test_add_car.py` (doors 2, size "xl"); the fuel and transmission it also checks come from the `CarInput` defaults at schemas.py:57,59, which that test does not assert.

## Properties proved about the code as written

- The list handlers' ids are **not** guaranteed unique. `CarList.RemoveThenAddRepeatsId` takes a list with ids 1 and 2, removes car 1 and adds a car. The new car gets id 2 again, and `get_car_by_id(2)` keeps returning the old car.
- Ids do stay distinct while no car is removed, provided the list starts with distinct ids in `1..len(db)` (`IdsWithinLength` and `DistinctIds`). Under that premise `len(db) + 1` is unused, the premise survives add_car, and the new car is the one found (`CarList.AddCarKeepsIds`). Nothing checks that premise on the list that `load_db()` reads: a list holding one car with id 2 gets a second id 2 from add_car. Only carsharing_data.py's constant list is known to meet it (`CarsharingData.InitialDb`), and that file has no add_car.
- Trip ids within a car stay `1, 2, …` provided the loaded car's trips are already numbered that way (`TripsNumbered`), because add_trip only appends trip `len(trips) + 1` (`CarList.AddTripKeepsNumbering`). A car loaded with one trip of id 2 gets a second trip with id 2.
- In the store-backed handlers, a removed id is always reported as NotFound afterwards (`ensures` of `RemoveCar`).

## Model

| member | source | states |
|---|---|---|
| CarList.Filter | carsharing_pydantic_nested.py:21-23 | a comprehension returns only cars of db that meet its condition, and never more cars than db holds |
| CarList.FilterCount | carsharing_data_full.py:18-21 | the comprehension keeps every occurrence of a car meeting the condition and no occurrence of any other car |
| CarList.FilterIsSubsequence | carsharing_data_full.py:18-21 | the comprehension keeps the cars in db order |
| CarList.FilterAppend | carsharing_pydantic.py:20-23 | filtering two lists one after the other gives the two filtered lists one after the other |
| CarList.ListCars | carsharing_pydantic_nested.py:19-24 | get_cars returns, in db order, exactly the cars that the size-first, then-doors-at-least rule selects, each as often as it occurs in db; with neither filter truthy that is all of db |
| CarList.FilterSelects | carsharing_data_full.py:18-21 | a comprehension returns, in db order, exactly the cars meeting its condition, each as often as it occurs in db |
| CarList.ListCarsAfterAppend | carsharing_data_full.py:16-45 | get_cars after add_car gives the old answer followed by the new car exactly when the filter keeps it |
| CarList.SizeTakesPrecedence | carsharing_data.py:44-47 | when size is truthy, the doors argument does not change the result |
| CarList.FirstIndex | carsharing_pydantic_nested.py:65-67 | the position of the first car with the id; none exactly when no car has the id |
| CarList.IdMatchesHead | carsharing_pydantic_nested.py:34-38 | the id comprehension is non-empty exactly when some car has the id, and its first element is the car at the first such position |
| CarList.Lookup | carsharing_pydantic_nested.py:34-40 | get_car_by_id gives the first car with the id, and NotFound exactly when no car has it |
| CarList.FirstIndexIsFirst | carsharing_data_full.py:28 | the first position with an id is unique |
| CarList.LookupAt | carsharing_data_full.py:28-32 | if position i holds the first car with the id, get_car_by_id returns that car |
| CarList.RemoveValue | carsharing_pydantic_nested.py:68 | `list.remove` drops exactly one element |
| CarList.RemoveValueFirst | carsharing_pydantic_nested.py:68 | `list.remove(x)` drops the first position holding x, and the elements before and after it keep their order |
| CarList.RemoveFirstWithId | carsharing_pydantic_nested.py:65-68 | removing `matches[0]` by equality removes exactly the first position with the id, because no earlier car equals it |
| CarList.RemovedAt | carsharing_data_full.py:53-56 | after the removal, db holds exactly one occurrence fewer of the removed car and nothing else changes in its contents |
| CarList.RemovedKeepsOrder | carsharing_data_full.py:53-56 | after the removal, the remaining cars are a subsequence of the old db: their order is kept |
| CarList.LookupRemoved | carsharing_data_full.py:53-56 | when ids are distinct, get_car_by_id reports NotFound for the removed id |
| CarList.LookupAppended | carsharing_pydantic.py:44-47 | an appended car whose id no earlier car has is what get_car_by_id then returns |
| CarList.LookupUpdated | carsharing_pydantic_nested.py:82-88 | after change_car, get_car_by_id returns the updated record, because its id is kept |
| CarList.AddCarKeepsIds | carsharing_data_full.py:42-45 | while ids are distinct and within 1..len(db), the id `len(db) + 1` is unused, both properties survive add_car, and the new car is found by its id |
| CarList.RemoveThenAddRepeatsId | carsharing_pydantic_nested.py:50-53 | after a removal, add_car can reuse an existing id, and get_car_by_id then returns the older car |
| CarList.AddTripKeepsNumbering | carsharing_pydantic_nested.py:106-109 | trips numbered 1..n stay numbered after add_trip, so trip ids within a car are distinct |
| CarsharingData.InitialDb | carsharing_data.py:8-18 | the constant list holds 9 cars with ids 1..9 in order, all distinct |
| CarsharingData.GetCars | carsharing_data.py:42-48 | a subsequence of db holding exactly the selected cars with their multiplicities; db itself when no filter is truthy |
| CarsharingData.GetCarById | carsharing_data.py:53-60 | succeeds exactly for ids 1..9 and returns the car with that id, otherwise NotFound |
| CarsharingDataFull.App.constructor | carsharing_data_full.py:10 | db starts as the loaded list |
| CarsharingDataFull.App.GetCars | carsharing_data_full.py:16-22 | a subsequence of db holding exactly the selected cars with their multiplicities; db itself when no filter is truthy |
| CarsharingDataFull.App.GetCarById | carsharing_data_full.py:27-34 | the first car with the id; NotFound exactly when no car has it |
| CarsharingDataFull.App.AddCar | carsharing_data_full.py:41-47 | appends, at the end of db, a car with id old length + 1, the input's four fields and no trips; returns it |
| CarsharingDataFull.App.RemoveCar | carsharing_data_full.py:52-59 | removes exactly the first car with the id; if there is none, NotFound and db unchanged |
| CarsharingDataFull.App.ChangeCar | carsharing_data_full.py:64-75 | the first car with the id gets the input's fuel, transmission, size and doors; its id and trips and every other car stay the same; NotFound and no change otherwise |
| CarsharingPydantic.App.constructor | carsharing_pydantic.py:10 | db starts as the loaded list |
| CarsharingPydantic.App.GetCars | carsharing_pydantic.py:18-24 | a subsequence of db holding exactly the selected cars with their multiplicities; db itself when no filter is truthy |
| CarsharingPydantic.App.GetCarById | carsharing_pydantic.py:29-36 | the first car with the id; NotFound exactly when no car has it |
| CarsharingPydantic.App.AddCar | carsharing_pydantic.py:43-49 | appends a car with id old length + 1, the input's four fields unchanged, and no trips |
| CarsharingPydanticNested.App.constructor | carsharing_pydantic_nested.py:10 | db starts as the loaded list |
| CarsharingPydanticNested.App.GetCars | carsharing_pydantic_nested.py:15-24 | a subsequence of db holding exactly the selected cars with their multiplicities; db itself when no filter is truthy |
| CarsharingPydanticNested.App.GetCarById | carsharing_pydantic_nested.py:28-40 | the first car with the id; NotFound exactly when no car has it |
| CarsharingPydanticNested.App.AddCar | carsharing_pydantic_nested.py:44-55 | appends a car with id old length + 1, the input's four fields and empty trips; earlier cars unchanged |
| CarsharingPydanticNested.App.RemoveCar | carsharing_pydantic_nested.py:59-71 | removes exactly the first car with the id and keeps the order of the rest; NotFound and db unchanged otherwise |
| CarsharingPydanticNested.App.ChangeCar | carsharing_pydantic_nested.py:75-92 | sets fuel, transmission, size and doors of the first matching car; its id, its trips and all other cars unchanged; NotFound otherwise |
| CarsharingPydanticNested.App.AddTrip | carsharing_pydantic_nested.py:96-113 | appends to the matching car's trips a trip with id old trip count + 1 and the input's start, end and description, with no start/end check; NotFound and no change otherwise |
| CarStore.Session.constructor | db.py:10-12 | the session opens on the given rows, which sit under their own ids |
| CarStore.Query | routers/cars.py:27-34 | the query returns the stored cars with size equal to the size argument when it is truthy and doors equal to the doors argument when it is truthy |
| CarStore.QueryIsConjunction | carsharing_pydantic_sql.py:35-42 | the two filters combine as an intersection, and with no filter all stored cars are returned |
| CarStore.Above | carsharing_di_sql.py:84-87 | every finite set of primary keys has a number above all of them, so a new row can always get an unused key |
| RoutersCars.GetCars | routers/cars.py:19-34 | a car is returned iff it is stored and its size and doors equal each truthy argument |
| RoutersCars.GetCarById | routers/cars.py:39-50 | the stored row for the id, and NotFound exactly when the id is absent |
| RoutersCars.AddCar | routers/cars.py:56-72 | given the authenticated user, stores and returns a row with an unused id, the input's four fields and no trips, and get_car_by_id then finds it; nothing else changes |
| RoutersCars.RemoveCar | routers/cars.py:77-89 | a present id is removed and nothing else; an absent id gives NotFound and no change; afterwards get_car_by_id reports NotFound |
| RoutersCars.ChangeCar | routers/cars.py:94-112 | overwrites fuel, transmission, size and doors only; id, trips and other rows unchanged; an absent id gives NotFound |
| RoutersCars.AddTrip | routers/cars.py:117-135 | absent car gives NotFound; end before start gives BadTrip; both leave the store unchanged; otherwise a trip with car_id = the path car_id and a fresh id becomes the last of the car's trips |
| CarsharingDiSql.GetCars | carsharing_di_sql.py:41-56 | a car is returned iff it is stored and its size and doors equal each truthy argument |
| CarsharingDiSql.GetCarById | carsharing_di_sql.py:62-73 | the stored row for the id, and NotFound exactly when the id is absent |
| CarsharingDiSql.AddCar | carsharing_di_sql.py:77-88 | stores and returns a row with an unused id, the input's four fields and no trips; get_car_by_id then finds it |
| CarsharingDiSql.RemoveCar | carsharing_di_sql.py:92-104 | removes a present id and nothing else; NotFound and no change otherwise |
| CarsharingDiSql.ChangeCar | carsharing_di_sql.py:108-126 | overwrites exactly the four fields and keeps id and trips; NotFound and no change otherwise |
| CarsharingDiSql.AddTrip | carsharing_di_sql.py:130-146 | appends a trip with car_id = the path car_id and a fresh id, whatever its start and end; an absent car gives NotFound and no change |
| CarsharingPydanticSql.GetCars | carsharing_pydantic_sql.py:27-42 | a car is returned iff it is stored and its size and doors equal each truthy argument |
| CarsharingPydanticSql.AddCar | carsharing_pydantic_sql.py:62-73 | stores and returns a row with an unused id, the input's four fields and no trips |

## Left out

- The model follows the code:
  - The store-backed get_cars is the AND of two equalities: `size ==` and `doors ==`. It is not the list handlers' "size first, then doors at least" rule.
  - Sizes, fuels and transmissions are free strings (`str` in schemas.py), so they are not enumerations.
  - The `trips` relationship of schemas.py and schemas_sql.py declares no delete cascade.
  - `BadTripException` is a plain exception class, and no handler maps it to a response code.
- JSON persistence (`load_db`, `save_db` in schemas_nested.py) is file I/O. The initial list is a constructor argument, and saving is not modelled. carsharing_pydantic.py and carsharing_data_full.py import both names from schemas.py, which does not define them. The model treats them as the schemas_nested.py versions.
- Aliasing is not modelled. The Python handlers change the car objects inside `db` in place, and get_cars with no filter returns the `db` list object itself. The model works on values, so a result returned earlier does not see later changes.
- SQLModel internals are not modelled: the engine, `commit`, `refresh`, lazy loading of relationships and transactions. The database picks a new primary key. The model only says that the key is unused by any car (or trip) row.
- RoutersCars.GetCars, CarsharingDiSql.GetCars, CarsharingPydanticSql.GetCars: the result is a set. The query has no `ORDER BY`, so the order of the returned rows is not stated.
- RoutersCars.RemoveCar, CarsharingDiSql.RemoveCar: the store keeps trips inside their car, so the model deletes a car's trip rows along with it, and `Session.TripIds()` no longer holds their ids. The source does something else. `car_id` is a non-nullable foreign key (schemas.py:48, schemas_sql.py:23) and no delete cascade is configured. SQLAlchemy's default is then to set the children's `car_id` to null, so committing the deletion of a car that has trips would likely fail. That is library behaviour, and the model does not capture it.
- Authentication is out of scope: password hashing and the OAuth2 token flow in routers/auth.py. add_car in routers/cars.py simply receives the resolved `User`. A missing or invalid token (401) never reaches the handler.
- get_car_by_id in carsharing_pydantic_sql.py reads a list `db` that the file never defines, so it has no behaviour to model.
- HTTP details are not modelled: status codes, the 201 override in routers/cars.py, and the 404 detail strings. The add_trip 404 details format Python's built-in `id` rather than `car_id`.
- The request-validation errors of pydantic (422 for malformed bodies) are not modelled. Inputs are well-typed values.
- The dicts of carsharing_data.py have no `trips` key. They are modelled as cars with an empty trip list.
- Concurrency between requests is out of scope, as are the framework and server startup (carsharing.py, routers/web.py, uvicorn).
