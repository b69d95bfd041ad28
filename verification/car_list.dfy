/**
 * What the list-backed handlers (carsharing_data.py, carsharing_data_full.py,
 * carsharing_pydantic.py, carsharing_pydantic_nested.py) compute over their
 * `db` list of cars. The four files share this code almost verbatim, so the
 * list comprehensions, `list.remove` and the record updates are defined once
 * here, together with the lemmas that say what they mean.
 */
module CarList {
  import opened Schemas

  /** The condition of one `[car for car in db if ...]` comprehension. */
  datatype Criterion = SizeIs(size: string) | DoorsAtLeast(doors: int) | IdIs(id: int)

  predicate Keeps(k: Criterion, c: CarOutput) {
    match k
    case SizeIs(s) => c.size == s
    case DoorsAtLeast(d) => c.doors >= d
    case IdIs(id) => c.id == id
  }

  /** The comprehension itself: the cars meeting `k`, in list order. */
  function Filter(cars: seq<CarOutput>, k: Criterion): (r: seq<CarOutput>)
    ensures |r| <= |cars|
    ensures forall c :: c in r ==> c in cars && Keeps(k, c)
  {
    if cars == [] then []
    else if Keeps(k, cars[0]) then [cars[0]] + Filter(cars[1..], k)
    else Filter(cars[1..], k)
  }

  /** `r` is `s` with some elements left out and the rest in their original order. */
  ghost predicate IsSubsequence<T>(r: seq<T>, s: seq<T>)
    decreases |s|
  {
    if r == [] then true
    else if s == [] then false
    else (r[0] == s[0] && IsSubsequence(r[1..], s[1..])) || IsSubsequence(r, s[1..])
  }

  lemma {:induction false} SubsequenceOfItself<T>(s: seq<T>)
    ensures IsSubsequence(s, s)
    decreases |s|
  {
    if s != [] {
      SubsequenceOfItself(s[1..]);
    }
  }

  /** Filtering keeps every occurrence of a kept car and no occurrence of any other. */
  lemma {:induction false} FilterCount(cars: seq<CarOutput>, k: Criterion, c: CarOutput)
    ensures multiset(Filter(cars, k))[c] == if Keeps(k, c) then multiset(cars)[c] else 0
  {
    if cars != [] {
      FilterCount(cars[1..], k, c);
      assert cars == [cars[0]] + cars[1..];
    }
  }

  /** Filtering keeps list order. */
  lemma {:induction false} FilterIsSubsequence(cars: seq<CarOutput>, k: Criterion)
    ensures IsSubsequence(Filter(cars, k), cars)
  {
    if cars != [] {
      FilterIsSubsequence(cars[1..], k);
      var rest := Filter(cars[1..], k);
      if Keeps(k, cars[0]) {
        assert Filter(cars, k) == [cars[0]] + rest;
        assert ([cars[0]] + rest)[1..] == rest;
      }
    }
  }

  /** Filtering a concatenation filters each part: the comprehension keeps the list's order. */
  lemma {:induction false} FilterAppend(a: seq<CarOutput>, b: seq<CarOutput>, k: Criterion)
    ensures Filter(a + b, k) == Filter(a, k) + Filter(b, k)
  {
    if a == [] {
      assert a + b == b;
    } else {
      var ab := a + b;
      assert ab[0] == a[0] && ab[1..] == a[1..] + b;
      FilterAppend(a[1..], b, k);
      var head := if Keeps(k, a[0]) then [a[0]] else [];
      assert Filter(ab, k) == head + Filter(ab[1..], k);
      assert Filter(a, k) == head + Filter(a[1..], k);
    }
  }

  /** What one comprehension keeps, in order and with multiplicities. */
  lemma FilterSelects(cars: seq<CarOutput>, k: Criterion)
    ensures IsSubsequence(Filter(cars, k), cars)
    ensures forall c :: multiset(Filter(cars, k))[c] == if Keeps(k, c) then multiset(cars)[c] else 0
    ensures forall c :: c in Filter(cars, k) <==> c in cars && Keeps(k, c)
  {
    FilterIsSubsequence(cars, k);
    forall c ensures multiset(Filter(cars, k))[c] == if Keeps(k, c) then multiset(cars)[c] else 0 {
      FilterCount(cars, k, c);
    }
    forall c ensures c in Filter(cars, k) <==> c in cars && Keeps(k, c) {
      assert c in Filter(cars, k) <==> multiset(Filter(cars, k))[c] > 0;
      assert c in cars <==> multiset(cars)[c] > 0;
    }
  }

  /** Which cars get_cars keeps, stated per car. */
  predicate Selects(size: Option<string>, doors: Option<int>, c: CarOutput) {
    if SizeGiven(size) then c.size == size.value
    else if DoorsGiven(doors) then c.doors >= doors.value
    else true
  }

  /**
   * get_cars: a truthy size wins, then a truthy doors threshold, else the
   * whole list. The result holds, in db order, exactly the cars that Selects
   * keeps, each as often as it occurs in db.
   */
  function ListCars(db: seq<CarOutput>, size: Option<string>, doors: Option<int>): (r: seq<CarOutput>)
    ensures IsSubsequence(r, db)
    ensures forall c :: multiset(r)[c] == if Selects(size, doors, c) then multiset(db)[c] else 0
    ensures forall c :: c in r <==> c in db && Selects(size, doors, c)
    ensures !SizeGiven(size) && !DoorsGiven(doors) ==> r == db
  {
    if SizeGiven(size) then
      FilterSelects(db, SizeIs(size.value));
      Filter(db, SizeIs(size.value))
    else if DoorsGiven(doors) then
      FilterSelects(db, DoorsAtLeast(doors.value));
      Filter(db, DoorsAtLeast(doors.value))
    else
      SubsequenceOfItself(db);
      db
  }

  lemma FilterOne(c: CarOutput, k: Criterion)
    ensures Filter([c], k) == if Keeps(k, c) then [c] else []
  {
    assert [c][1..] == [];
  }

  /**
   * get_cars after add_car: the old answer, followed by the new car when the
   * filter keeps it.
   */
  lemma ListCarsAfterAppend(db: seq<CarOutput>, c: CarOutput, size: Option<string>, doors: Option<int>)
    ensures ListCars(db + [c], size, doors) ==
            ListCars(db, size, doors) + (if Selects(size, doors, c) then [c] else [])
  {
    if SizeGiven(size) {
      FilterAppend(db, [c], SizeIs(size.value));
      FilterOne(c, SizeIs(size.value));
    } else if DoorsGiven(doors) {
      FilterAppend(db, [c], DoorsAtLeast(doors.value));
      FilterOne(c, DoorsAtLeast(doors.value));
    }
  }

  /** A truthy size decides alone: the doors parameter is then ignored. */
  lemma SizeTakesPrecedence(db: seq<CarOutput>, size: Option<string>, doors: Option<int>, otherDoors: Option<int>)
    requires SizeGiven(size)
    ensures ListCars(db, size, doors) == ListCars(db, size, otherDoors)
  {
  }

  /** Position `i` holds the first car of `db` whose id is `id`. */
  ghost predicate IsFirstWithId(db: seq<CarOutput>, id: int, i: int) {
    0 <= i < |db| && db[i].id == id && forall j :: 0 <= j < i ==> db[j].id != id
  }

  /** The position `matches[0]` was taken from, if any car has the id. */
  function FirstIndex(db: seq<CarOutput>, id: int): (r: Option<nat>)
    ensures r.Some? ==> IsFirstWithId(db, id, r.value)
    ensures r.None? ==> forall c :: c in db ==> c.id != id
  {
    if db == [] then None
    else if db[0].id == id then Some(0)
    else match FirstIndex(db[1..], id)
      case None => None
      case Some(i) => Some(i + 1)
  }

  /** The first match of the id comprehension is the car at FirstIndex. */
  lemma {:induction false} IdMatchesHead(db: seq<CarOutput>, id: int)
    ensures Filter(db, IdIs(id)) != [] <==> FirstIndex(db, id).Some?
    ensures FirstIndex(db, id).Some? ==> Filter(db, IdIs(id))[0] == db[FirstIndex(db, id).value]
  {
    if db != [] && db[0].id != id {
      IdMatchesHead(db[1..], id);
    }
  }

  /** get_car_by_id: `result = [car for car in db if car.id == id]`, then `result[0]` or 404. */
  function Lookup(db: seq<CarOutput>, id: int): (r: Result<CarOutput>)
    ensures r.Ok? ==> exists i :: IsFirstWithId(db, id, i) && r.value == db[i]
    ensures r.Err? <==> forall c :: c in db ==> c.id != id
    ensures r.Err? ==> r.error == NotFound
  {
    IdMatchesHead(db, id);
    var matches := Filter(db, IdIs(id));
    if |matches| > 0 then Ok(matches[0]) else Err(NotFound)
  }

  /** There is only one first position for an id. */
  lemma FirstIndexIsFirst(db: seq<CarOutput>, id: int, i: int)
    requires IsFirstWithId(db, id, i)
    ensures FirstIndex(db, id) == Some(i)
  {
  }

  /** get_car_by_id returns the car at the first position carrying the id. */
  lemma LookupAt(db: seq<CarOutput>, id: int, i: int)
    requires IsFirstWithId(db, id, i)
    ensures Lookup(db, id) == Ok(db[i])
  {
    IdMatchesHead(db, id);
    FirstIndexIsFirst(db, id, i);
  }

  /** Python's `list.remove(x)`: drops the first element equal to `x`. */
  function RemoveValue(s: seq<CarOutput>, x: CarOutput): (r: seq<CarOutput>)
    requires x in s
    ensures |r| == |s| - 1
  {
    if s[0] == x then s[1..] else [s[0]] + RemoveValue(s[1..], x)
  }

  /** `list.remove(x)` drops the first position holding `x` and keeps the rest in order. */
  lemma {:induction false} RemoveValueFirst(s: seq<CarOutput>, x: CarOutput) returns (k: nat)
    requires x in s
    ensures k < |s| && s[k] == x && x !in s[..k]
    ensures RemoveValue(s, x) == s[..k] + s[k + 1..]
  {
    if s[0] == x {
      k := 0;
    } else {
      var t := s[1..];
      assert x in t;
      var k' := RemoveValueFirst(t, x);
      k := k' + 1;
      assert s[..k] == [s[0]] + t[..k'];
      assert s[k + 1..] == t[k' + 1..];
    }
  }

  /**
   * `db.remove(car)` with `car` the first car carrying its id removes that
   * very position: no earlier car can be equal to it.
   */
  lemma {:induction false} RemoveFirstWithId(db: seq<CarOutput>, id: int, i: int)
    requires IsFirstWithId(db, id, i)
    ensures RemoveValue(db, db[i]) == db[..i] + db[i + 1..]
  {
    if i > 0 {
      assert db[0] != db[i];
      assert IsFirstWithId(db[1..], id, i - 1);
      RemoveFirstWithId(db[1..], id, i - 1);
      assert db[1..][..i - 1] + db[1..][i..] == db[1..i] + db[i + 1..];
    }
  }

  /** Dropping position `i` takes away exactly one occurrence of `db[i]`. */
  lemma RemovedAt(db: seq<CarOutput>, i: int)
    requires 0 <= i < |db|
    ensures multiset(db[..i] + db[i + 1..]) == multiset(db) - multiset{db[i]}
  {
    var pre, post := db[..i], db[i + 1..];
    assert db == pre + ([db[i]] + post);
  }

  /** Dropping position `i` keeps the other cars in their order. */
  lemma {:induction false} RemovedKeepsOrder(db: seq<CarOutput>, i: int)
    requires 0 <= i < |db|
    ensures IsSubsequence(db[..i] + db[i + 1..], db)
    decreases i
  {
    if i == 0 {
      assert db[..0] + db[1..] == db[1..];
      SubsequenceOfItself(db[1..]);
      if db[1..] != [] {
        assert IsSubsequence(db[1..], db[1..]);
      }
    } else {
      RemovedKeepsOrder(db[1..], i - 1);
      var r := db[..i] + db[i + 1..];
      assert r[0] == db[0];
      assert r[1..] == db[1..][..i - 1] + db[1..][i..];
    }
  }

  /** add_car's new record: the input's four fields, the given id and no trips. */
  function FromInput(input: CarInput, id: int): CarOutput {
    CarOutput(id, input.size, input.fuel, input.doors, input.transmission, [])
  }

  /** change_car's assignments to `car.fuel`, `car.transmission`, `car.size` and `car.doors`. */
  function Changed(car: CarOutput, input: CarInput): CarOutput {
    car.(fuel := input.fuel, transmission := input.transmission, size := input.size, doors := input.doors)
  }

  /** add_trip's new record, numbered after the car's existing trips. */
  function NextTrip(car: CarOutput, input: TripInput): TripOutput {
    TripOutput(|car.trips| + 1, input.start, input.end, input.description)
  }

  /** A car appended with an id no earlier car has is what get_car_by_id then finds. */
  lemma LookupAppended(db: seq<CarOutput>, c: CarOutput)
    requires forall x :: x in db ==> x.id != c.id
    ensures Lookup(db + [c], c.id) == Ok(c)
  {
    var db' := db + [c];
    forall j | 0 <= j < |db| ensures db'[j].id != c.id {
      assert db'[j] == db[j];
    }
    LookupAt(db', c.id, |db|);
  }

  /** A car updated in place keeps its id, so get_car_by_id finds the updated record. */
  lemma LookupUpdated(db: seq<CarOutput>, id: int, i: int, x: CarOutput)
    requires IsFirstWithId(db, id, i) && x.id == id
    ensures Lookup(db[i := x], id) == Ok(x)
  {
    LookupAt(db[i := x], id, i);
  }

  /** Every car id is different. */
  ghost predicate DistinctIds(db: seq<CarOutput>) {
    forall i, j :: 0 <= i < j < |db| ==> db[i].id != db[j].id
  }

  /** Every id lies in 1..len(db): what makes `len(db) + 1` an unused id. */
  ghost predicate IdsWithinLength(db: seq<CarOutput>) {
    forall c :: c in db ==> 1 <= c.id <= |db|
  }

  /**
   * As long as ids stay within 1..len(db), add_car's id is unused, the
   * property survives the append, and the new car is what get_car_by_id finds.
   */
  lemma AddCarKeepsIds(db: seq<CarOutput>, input: CarInput)
    requires IdsWithinLength(db) && DistinctIds(db)
    ensures var db' := db + [FromInput(input, |db| + 1)];
            IdsWithinLength(db') && DistinctIds(db') && Lookup(db', |db| + 1) == Ok(db'[|db|])
  {
    var c := FromInput(input, |db| + 1);
    var db' := db + [c];
    forall x | x in db' ensures 1 <= x.id <= |db'| {
      if x != c {
        assert x in db;
      }
    }
    forall i, j | 0 <= i < j < |db'| ensures db'[i].id != db'[j].id {
      assert db'[i] in db;
      if j < |db| {
        assert db'[i] == db[i] && db'[j] == db[j];
      }
    }
    LookupAppended(db, c);
  }

  /** If no car has the id, removal by position leaves get_car_by_id reporting NotFound. */
  lemma LookupRemoved(db: seq<CarOutput>, id: int, i: int)
    requires DistinctIds(db) && IsFirstWithId(db, id, i)
    ensures Lookup(db[..i] + db[i + 1..], id) == Err(NotFound)
  {
    var db' := db[..i] + db[i + 1..];
    forall c | c in db' ensures c.id != id {
      var k :| 0 <= k < |db'| && db'[k] == c;
      if k < i {
        assert db'[k] == db[k];
      } else {
        assert db'[k] == db[k + 1];
      }
    }
  }

  /**
   * Ids are not fresh after a removal: removing car 1 from [1, 2] and adding
   * a car gives it id 2 again, and get_car_by_id(2) keeps returning the old car.
   */
  lemma RemoveThenAddRepeatsId(a: CarOutput, b: CarOutput, input: CarInput)
    requires a.id == 1 && b.id == 2
    ensures var db := [a, b][1..];
            var db' := db + [FromInput(input, |db| + 1)];
            !DistinctIds(db') && Lookup(db', 2) == Ok(b)
  {
    var db := [a, b][1..];
    var db' := db + [FromInput(input, |db| + 1)];
    assert db == [b];
    assert db'[0] == b && db'[1].id == 2;
    LookupAt(db', 2, 0);
  }

  /** The trips of a car are numbered 1, 2, ... in list order. */
  ghost predicate TripsNumbered(car: CarOutput) {
    forall k :: 0 <= k < |car.trips| ==> car.trips[k].id == k + 1
  }

  /** Appending add_trip's trip keeps the numbering, so trip ids within a car stay distinct. */
  lemma AddTripKeepsNumbering(car: CarOutput, input: TripInput)
    requires TripsNumbered(car)
    ensures var car' := car.(trips := car.trips + [NextTrip(car, input)]);
            TripsNumbered(car') &&
            forall k, m :: 0 <= k < m < |car'.trips| ==> car'.trips[k].id != car'.trips[m].id
  {
  }
}
