/** The car record held in the catalog, and the response values the
    handlers produce. */
module Cars {
  import opened JsValues

  /** One catalog entry. `kind` stands for the record's `type` field
      (`type` is a reserved word in Dafny). `make` is optional because the
      create route stores whatever make the request carried, including
      none. */
  datatype Car = Car(id: string, make: Option<string>, kind: string, model: string, cost: int)

  /** The fields of a create request body, each possibly absent. */
  datatype CarRequest = CarRequest(
    id: Option<string>,
    make: Option<string>,
    kind: Option<string>,
    model: Option<string>,
    cost: Option<int>)

  /** A response body: plain text, a JSON array of cars, or one JSON car. */
  datatype Body = Text(text: string) | CarList(cars: seq<Car>) | OneCar(car: Car)

  datatype Response = Response(status: int, body: Body)

  /** What a handler leaves behind: the response it sends and the catalog
      as it stands afterwards. */
  datatype Outcome = Outcome(response: Response, catalog: seq<Car>)
}
