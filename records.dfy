/** The car record kept in `cars.json`, and the id allocation of `getNextId`
    (server.js:46-48). */
module Records {

  import opened Wrappers

  /** One car record. A record read back from the file may carry a missing or
      falsy id (`None`); a year or price that `parseInt` could not read is
      `NaN` when created and `null` once written, both `None` here. A car
      without a photo has `imageUrl` `null`, here `None`. */
  datatype Car = Car(
    id: Option<int>,
    make: string,
    model: string,
    year: Option<int>,
    price: Option<int>,
    imageUrl: Option<string>)

  /** `car.id || 0`: a missing id counts as 0. */
  function IdOrZero(car: Car): int
  {
    match car.id
    case Some(v) => v
    case None => 0
  }

  function Max(a: int, b: int): int
  {
    if a < b then b else a
  }

  /** The `reduce` of getNextId: folds `Math.max` over the ids from left to
      right, starting from the accumulator `acc`. The result is the largest
      of `acc` and all ids: it bounds each of them and is one of them. */
  function MaxId(cars: seq<Car>, acc: int): (m: int)
    ensures acc <= m
    ensures forall i :: 0 <= i < |cars| ==> IdOrZero(cars[i]) <= m
    ensures m == acc || exists i :: 0 <= i < |cars| && m == IdOrZero(cars[i])
    decreases |cars|
  {
    if cars == [] then acc
    else
      var m := MaxId(cars[1..], Max(acc, IdOrZero(cars[0])));
      assert forall i :: 1 <= i < |cars| ==> cars[i] == cars[1..][i - 1];
      m
  }

  /** getNextId: one more than the largest id, counting from 0. It is at
      least 1, exceeds every id in the list, and is not larger than needed:
      either 1 or one more than some id in the list. */
  function NextId(cars: seq<Car>): (r: int)
    ensures 1 <= r
    ensures forall i :: 0 <= i < |cars| ==> IdOrZero(cars[i]) < r
    ensures r == 1 || exists i :: 0 <= i < |cars| && r == IdOrZero(cars[i]) + 1
  {
    MaxId(cars, 0) + 1
  }

  /** 2^53: every integer up to it is exactly a JavaScript number, so
      `max + 1` is computed without rounding while `max` stays below it. */
  const ExactIntegerLimit: int := 0x20_0000_0000_0000

  /** While every stored id is below 2^53, the next id is at most 2^53, so
      the double arithmetic of getNextId gives the exact value computed
      here. */
  lemma NextIdIsExact(cars: seq<Car>)
    requires forall i :: 0 <= i < |cars| ==> IdOrZero(cars[i]) < ExactIntegerLimit
    ensures NextId(cars) <= ExactIntegerLimit
  {
  }

  /** The next id of an empty list (an empty or unreadable store) is 1. */
  lemma NextIdOfEmpty()
    ensures NextId([]) == 1
  {
  }

  /** No record already in the list carries the next id. */
  lemma NextIdIsFresh(cars: seq<Car>, car: Car)
    requires car in cars
    ensures car.id != Some(NextId(cars))
  {
  }

  /** Appending a record never lowers the next id: it becomes the larger of
      the old next id and one past the appended record's id. */
  lemma {:induction false} NextIdAppend(cars: seq<Car>, car: Car)
    ensures NextId(cars + [car]) == Max(NextId(cars), IdOrZero(car) + 1)
  {
    MaxIdAppend(cars, car, 0);
  }

  lemma {:induction false} MaxIdAppend(cars: seq<Car>, car: Car, acc: int)
    ensures MaxId(cars + [car], acc) == Max(MaxId(cars, acc), IdOrZero(car))
    decreases |cars|
  {
    if cars == [] {
      assert [car][1..] == [];
    } else {
      assert (cars + [car])[1..] == cars[1..] + [car];
      MaxIdAppend(cars[1..], car, Max(acc, IdOrZero(cars[0])));
    }
  }
}
