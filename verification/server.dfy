/** The route handlers of the car server, each lifted out of the web
    framework into a pure function. Request fields arrive as `Option`
    values; handlers that touch the catalog take it as a parameter and
    return it, possibly extended, in an `Outcome`. */
module Server {
  import opened JsValues
  import opened Sequences
  import opened Cars

  const WelcomeText := "Welcome to the Cloud!"
  const GreetingPrefix := "Welcome to the Cloud, "
  const NameRequired := "name is required"
  const IdRequired := "id is required"
  const CarFieldsRequired := "make, type, model, cost, id are required to add a car."

  /** The text of a successful greeting. */
  function Greeting(name: string): string {
    GreetingPrefix + name + "!"
  }

  /** `text` is the greeting prefix, then `name`, then a closing `!`. */
  predicate Welcomes(text: string, name: string) {
    && |text| == |GreetingPrefix| + |name| + 1
    && text[..|GreetingPrefix|] == GreetingPrefix
    && text[|GreetingPrefix|..|text| - 1] == name
    && text[|text| - 1] == '!'
  }

  /** The text of a failed lookup by id. */
  function NotFound(id: string): string {
    "no car with id: " + id + " found."
  }

  /** The contract shared by the three greeting routes: a 400 with a fixed
      text for a falsy name, otherwise a 200 that welcomes the name. */
  predicate GreetsCorrectly(name: Option<string>, r: Response) {
    && r.body.Text?
    && (r.status == 200 || r.status == 400)
    && (r.status == 400 <==> !IsTruthyString(name))
    && (r.status == 400 ==> r.body.text == NameRequired)
    && (r.status == 200 ==> Welcomes(r.body.text, name.value))
  }

  /** Cars whose make is exactly `m`; a car stored without a make never
      matches. */
  function HasMake(m: string): Car -> bool {
    (c: Car) => c.make == Some(m)
  }

  /** Cars whose id is exactly `id`. */
  function HasId(id: string): Car -> bool {
    (c: Car) => c.id == id
  }

  /** The create route's presence check on the request body. */
  predicate IsCompleteRequest(req: CarRequest) {
    && IsTruthyString(req.id)
    && IsTruthyString(req.kind)
    && IsTruthyString(req.model)
    && IsTruthyNumber(req.cost)
  }

  /** GET `/`. */
  function Root(): (r: Response)
    ensures r.status == 200
    ensures r.body == Text("Welcome to the Cloud!")
  {
    Response(200, Text(WelcomeText))
  }

  /** The greeting logic the three routes share. */
  function Greet(name: Option<string>): Response {
    if IsTruthyString(name) then Response(200, Text(Greeting(name.value)))
    else Response(400, Text(NameRequired))
  }

  /** GET `/persons/:name`, the name taken from the path. */
  function GreetByPath(name: Option<string>): (r: Response)
    ensures GreetsCorrectly(name, r)
  {
    Greet(name)
  }

  /** GET `/persons/?name=`, the name taken from the query string. */
  function GreetByQuery(name: Option<string>): (r: Response)
    ensures GreetsCorrectly(name, r)
  {
    Greet(name)
  }

  /** POST `/persons`, the name taken from the JSON body. */
  function GreetByBody(name: Option<string>): (r: Response)
    ensures GreetsCorrectly(name, r)
  {
    Greet(name)
  }

  /** GET `/cars/?make=`: the whole catalog, or, for a truthy `make`, the
      cars of exactly that make in catalog order. Always 200. */
  function ListCars(cars: seq<Car>, make: Option<string>): (o: Outcome)
    ensures o.catalog == cars
    ensures o.response.status == 200 && o.response.body.CarList?
    ensures !IsTruthyString(make) ==> o.response.body.cars == cars
    ensures IsTruthyString(make) ==>
      && (forall c :: c in o.response.body.cars <==> c in cars && c.make == make)
      && Selects(o.response.body.cars, cars, HasMake(make.value))
  {
    if !IsTruthyString(make) then Outcome(Response(200, CarList(cars)), cars)
    else
      FilterSelects(cars, HasMake(make.value));
      Outcome(Response(200, CarList(Filter(cars, HasMake(make.value)))), cars)
  }

  /** GET `/cars/:id`: 400 for a falsy id, 404 when no car has the id,
      otherwise 200 with every car carrying it, in catalog order. */
  function GetCar(cars: seq<Car>, id: Option<string>): (o: Outcome)
    ensures o.catalog == cars
    ensures !IsTruthyString(id) ==> o.response == Response(400, Text(IdRequired))
    ensures IsTruthyString(id) ==>
      (o.response.status == 404 <==> forall c :: c in cars ==> c.id != id.value)
    ensures IsTruthyString(id) && o.response.status == 404 ==>
      o.response.body == Text("no car with id: " + id.value + " found.")
    ensures IsTruthyString(id) && o.response.status != 404 ==>
      && o.response.status == 200
      && o.response.body.CarList?
      && |o.response.body.cars| > 0
      && (forall c :: c in o.response.body.cars <==> c in cars && c.id == id.value)
      && Selects(o.response.body.cars, cars, HasId(id.value))
  {
    if !IsTruthyString(id) then Outcome(Response(400, Text(IdRequired)), cars)
    else
      var matching := Filter(cars, HasId(id.value));
      FilterSelects(cars, HasId(id.value));
      if |matching| == 0 then Outcome(Response(404, Text(NotFound(id.value))), cars)
      else Outcome(Response(200, CarList(matching)), cars)
  }

  /** The car a complete create request describes, fields copied as given. */
  function NewCar(req: CarRequest): Car
    requires IsCompleteRequest(req)
  {
    Car(req.id.value, req.make, req.kind.value, req.model.value, req.cost.value)
  }

  /** POST `/cars/`: a 400 that leaves the catalog alone unless id, type,
      model and cost are all truthy; otherwise the new car is appended and
      echoed with 201. Neither the make nor the uniqueness of the id is
      checked. */
  function CreateCar(cars: seq<Car>, req: CarRequest): (o: Outcome)
    ensures o.response.status == 201 <==> IsCompleteRequest(req)
    ensures !IsCompleteRequest(req) ==>
      o.response == Response(400, Text(CarFieldsRequired)) && o.catalog == cars
    ensures IsCompleteRequest(req) ==>
      && o.response.body.OneCar?
      && o.response.body.car.id == req.id.value
      && o.response.body.car.make == req.make
      && o.response.body.car.kind == req.kind.value
      && o.response.body.car.model == req.model.value
      && o.response.body.car.cost == req.cost.value
      && |o.catalog| == |cars| + 1
      && o.catalog[..|cars|] == cars
      && o.catalog[|cars|] == o.response.body.car
  {
    if !IsCompleteRequest(req) then Outcome(Response(400, Text(CarFieldsRequired)), cars)
    else
      var car := NewCar(req);
      Outcome(Response(201, OneCar(car)), cars + [car])
  }
}
