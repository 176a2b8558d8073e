/** A run of the server as a sequence of handler calls against the one
    catalog the process owns. The catalog is append-only: no call
    removes or changes an entry. */
module Session {
  import opened JsValues
  import opened Cars
  import opened Server

  /** One call of a catalog route, with the request fields it reads. */
  datatype Call = List(make: Option<string>) | Get(id: Option<string>) | Create(req: CarRequest)

  /** Handles one call. */
  function Step(cars: seq<Car>, call: Call): Outcome {
    match call
    case List(make) => ListCars(cars, make)
    case Get(id) => GetCar(cars, id)
    case Create(req) => CreateCar(cars, req)
  }

  /** The catalog after the calls, in order, starting from `cars`. */
  function Run(cars: seq<Car>, calls: seq<Call>): seq<Car>
    decreases |calls|
  {
    if |calls| == 0 then cars else Run(Step(cars, calls[0]).catalog, calls[1..])
  }

  /** The car a call adds to the catalog: one for an accepted create,
      none otherwise. */
  function Added(call: Call): seq<Car> {
    if call.Create? && IsCompleteRequest(call.req) then [NewCar(call.req)] else []
  }

  /** The cars that the accepted create calls describe, in call order. */
  function Created(calls: seq<Call>): seq<Car>
    decreases |calls|
  {
    if |calls| == 0 then [] else Added(calls[0]) + Created(calls[1..])
  }

  /** One call extends the catalog by exactly what it adds. */
  lemma StepAppends(cars: seq<Car>, call: Call)
    ensures Step(cars, call).catalog == cars + Added(call)
  {
  }

  /** Running calls appends exactly the accepted new cars to the catalog,
      in order; everything already present stays where it was. */
  lemma {:induction false} RunAppendsCreated(cars: seq<Car>, calls: seq<Call>)
    ensures Run(cars, calls) == cars + Created(calls)
    ensures |Run(cars, calls)| >= |cars|
    ensures Run(cars, calls)[..|cars|] == cars
    decreases |calls|
  {
    if |calls| != 0 {
      var next := Step(cars, calls[0]).catalog;
      StepAppends(cars, calls[0]);
      RunAppendsCreated(next, calls[1..]);
      assert Run(cars, calls) == Run(next, calls[1..]);
      assert Created(calls) == Added(calls[0]) + Created(calls[1..]);
      assert (cars + Added(calls[0])) + Created(calls[1..]) == cars + Created(calls);
    }
  }

  /** A run of list and lookup calls only leaves the catalog as it was,
      so repeating a read gives the same response. */
  lemma {:induction false} ReadsLeaveCatalog(cars: seq<Car>, calls: seq<Call>)
    requires forall i :: 0 <= i < |calls| ==> !calls[i].Create?
    ensures Run(cars, calls) == cars
    decreases |calls|
  {
    if |calls| != 0 {
      ReadsLeaveCatalog(cars, calls[1..]);
    }
  }
}
