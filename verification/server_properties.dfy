/** Properties that relate several handler calls: greetings can be read
    back, and a successful create is visible to later reads. */
module ServerProperties {
  import opened JsValues
  import opened Sequences
  import opened Cars
  import opened Server

  /** `Welcomes` describes exactly the greeting template. */
  lemma WelcomesIsGreeting(text: string, name: string)
    ensures Welcomes(text, name) <==> text == Greeting(name)
  {
  }

  /** The name can be read back from a successful greeting, so two
      different names never receive the same greeting on any of the three
      greeting routes, which all answer with `Greet`. */
  lemma GreetingIsInjective(a: Option<string>, b: Option<string>)
    requires IsTruthyString(a) && IsTruthyString(b)
    requires Greet(a) == Greet(b)
    ensures a == b
  {
    var t := Greet(a).body.text;
    WelcomesIsGreeting(t, a.value);
    WelcomesIsGreeting(t, b.value);
  }

  /** The 404 text names the id that was asked for. */
  lemma NotFoundIsInjective(a: string, b: string)
    requires NotFound(a) == NotFound(b)
    ensures a == b
  {
    assert NotFound(a)[16..|NotFound(a)| - 7] == a;
    assert NotFound(b)[16..|NotFound(b)| - 7] == b;
  }

  /** After a successful create, looking up the new id succeeds; the
      result is what the lookup would have matched before, followed by
      the new car. Ids are strings here; a JSON-number id in the request
      body would be stored as a number and never equal the string path
      parameter, which the model does not represent. */
  lemma {:induction false} LookupAfterCreate(cars: seq<Car>, req: CarRequest)
    requires IsCompleteRequest(req)
    ensures var created := CreateCar(cars, req);
            var found := GetCar(created.catalog, req.id);
            && found.response.status == 200
            && found.response.body.CarList?
            && |found.response.body.cars| > 0
            && found.response.body.cars[|found.response.body.cars| - 1] == created.response.body.car
            && found.response.body.cars[..|found.response.body.cars| - 1] == Filter(cars, HasId(req.id.value))
  {
    var car := NewCar(req);
    FilterAppend(cars, car, HasId(req.id.value));
  }

  /** A create does not change the result of looking up any other id.
      (A falsy id gets the same 400 from every catalog.) */
  lemma {:induction false} CreateLeavesOtherLookups(cars: seq<Car>, req: CarRequest, id: Option<string>)
    requires IsCompleteRequest(req)
    requires IsTruthyString(id) && id != req.id
    ensures GetCar(CreateCar(cars, req).catalog, id).response == GetCar(cars, id).response
  {
    FilterAppend(cars, NewCar(req), HasId(id.value));
  }

  /** Listing after a successful create shows the previous listing,
      followed by the new car when it passes the same make filter. Makes
      are strings here; a JSON-number make would never equal the string
      query parameter, which the model does not represent. */
  lemma {:induction false} ListAfterCreate(cars: seq<Car>, req: CarRequest, make: Option<string>)
    requires IsCompleteRequest(req)
    ensures var created := CreateCar(cars, req);
            var car := created.response.body.car;
            var before := ListCars(cars, make).response.body.cars;
            ListCars(created.catalog, make).response.body.cars
              == before + (if !IsTruthyString(make) || car.make == make then [car] else [])
  {
    if IsTruthyString(make) {
      FilterAppend(cars, NewCar(req), HasMake(make.value));
    }
  }

  /** The make field plays no part in deciding whether a create succeeds. */
  lemma CreateIgnoresMake(cars: seq<Car>, req: CarRequest, make: Option<string>)
    ensures CreateCar(cars, req).response.status == CreateCar(cars, req.(make := make)).response.status
  {
  }
}
