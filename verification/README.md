# basic-server car API, modelled in Dafny

A model of the request handlers of `basic-server`, a small Express server
that greets a named person and keeps an in-memory, append-only catalog of
cars. Each route handler is a pure function of the request fields it reads
(each possibly absent, as an `Option`). The root and greeting routes return
a `Response` (status plus a text body). The car routes also take the catalog
as a `seq<Car>` and return an `Outcome`: the response (status plus a text,
a car-list or a single-car body) together with the catalog as it stands
afterwards.

Files:

- `js_values.dfy` (`JsValues`): optional request fields and JavaScript
  truthiness. A string is falsy when absent or empty; a number when absent or
  zero.
- `sequences.dfy` (`Sequences`): `Filter`, the model of `Array.prototype.filter`,
  with the specification `Selects` (an order-preserving subsequence that keeps
  every matching occurrence and nothing else), and a proof that this
  specification has exactly one solution.
- `cars.dfy` (`Cars`): the `Car` record, the create-request body, responses.
- `server.dfy` (`Server`): the seven route handlers.
- `server_properties.dfy` (`ServerProperties`): properties relating several
  calls (lookup after create, listing after create, greeting read-back).
- `session.dfy` (`Session`): a run of catalog calls, and the append-only
  invariant of the catalog.

Modelling decisions:

- The car field `type` is called `kind`, because `type` is a Dafny keyword.
- `Car.make` is an `Option<string>`. The create route stores the request's
  make without checking it, so a created car may have none; such a car never
  matches a make filter, just as `undefined === "Ford"` is false.
- The create route's 400 text lists `make` among the required fields, but
  the comment above the route (server.ts:110) lists only id, type, model and
  cost, as the code checks. The model follows the code: make is not validated
  (`ServerProperties.CreateIgnoresMake`).
- A cost of 0 is rejected, as the code's truthiness check does. Whether that
  is intended is an open question. The model keeps the behaviour as written.
- Duplicate ids are accepted by create, and lookup by id returns every match.
- Each handler is pure, so repeating a read with the same catalog and fields
  gives the same response.

## Model

| member | source | states |
|---|---|---|
| Server.Root | basic-server/src/server.ts:19-21 | The root route always answers 200 with the text `Welcome to the Cloud!`. |
| Server.GreetByPath | basic-server/src/server.ts:26-37 | A path name that is absent or empty gives 400 `name is required`; any other name gives 200 with a text made of the prefix `Welcome to the Cloud, `, the name, and `!`. |
| Server.GreetByQuery | basic-server/src/server.ts:41-51 | The same contract for the name taken from the query string. |
| Server.GreetByBody | basic-server/src/server.ts:57-69 | The same contract for the name taken from the JSON body. |
| Server.ListCars | basic-server/src/server.ts:74-86 | Always 200 with a car list, and the catalog is unchanged. With no make or an empty make, the list is the whole catalog in order. Otherwise it holds exactly the cars whose make equals the query, in catalog order, with every occurrence kept; it may be empty. |
| Server.GetCar | basic-server/src/server.ts:92-106 | The catalog is unchanged. An absent or empty id gives 400 `id is required`. Otherwise the status is 404 exactly when no car has that id, with the text `no car with id: <id> found.`. In the other case it is 200 with a non-empty list of exactly the cars with that id, in catalog order. |
| Server.CreateCar | basic-server/src/server.ts:112-131 | Status 201 exactly when id, type, model and cost are all truthy; the make and existing ids are not checked. A failed create gives 400 with the fixed text and leaves the catalog unchanged. A successful one returns a car whose fields equal the request's. The new catalog is one longer, keeps the old entries at their places and has that car last. |
| Sequences.Filter | basic-server/src/server.ts:82 | The filtered list is never longer than the list it was taken from. |
| Sequences.FilterSelects | basic-server/src/server.ts:82 | The filtered list contains a value exactly when the source does and the value matches. It is an order-preserving subsequence of the source holding as many copies of each matching value as the source and none of any other. |
| Sequences.FilterUnique | basic-server/src/server.ts:82 | Any list that is a subsequence of the source and holds exactly the matching occurrences equals the filter's result, so the contracts of the list and lookup routes determine their bodies. |
| Sequences.FilterAppend | basic-server/src/server.ts:128 | Filtering a catalog after a push gives the earlier filter result, followed by the pushed car when it matches. |
| ServerProperties.WelcomesIsGreeting | basic-server/src/server.ts:36 | A text has the prefix-name-`!` shape of the greeting contract exactly when it equals the greeting template for that name. |
| ServerProperties.GreetingIsInjective | basic-server/src/server.ts:30-36 | Two non-empty names that receive the same greeting response, on any of the three greeting routes, are the same name. |
| ServerProperties.NotFoundIsInjective | basic-server/src/server.ts:102 | Two ids that produce the same not-found text are the same id. |
| ServerProperties.LookupAfterCreate | basic-server/src/server.ts:92-131 | Right after a successful create with a string id, looking up that id gives 200. The new car is the last element of the result, and the elements before it are the cars that matched the id before the create. |
| ServerProperties.CreateLeavesOtherLookups | basic-server/src/server.ts:92-131 | A successful create does not change the response of a lookup by any other non-empty id. An absent or empty id gets the same 400 from every catalog, by the contract of `Server.GetCar`. |
| ServerProperties.ListAfterCreate | basic-server/src/server.ts:74-131 | With string makes, listing after a successful create gives the earlier listing, followed by the new car when there is no make filter or its make matches. |
| ServerProperties.CreateIgnoresMake | basic-server/src/server.ts:113-115 | Changing the request's make never changes whether a create succeeds. |
| Session.StepAppends | basic-server/src/server.ts:74-131 | A single list, lookup or create call extends the catalog by exactly the car an accepted create describes, and by nothing otherwise. |
| Session.RunAppendsCreated | basic-server/src/server.ts:74-131 | After any sequence of list, lookup and create calls, the catalog is the starting catalog followed by the cars of the accepted creates, in call order. Nothing is removed or changed. |
| Session.ReadsLeaveCatalog | basic-server/src/server.ts:74-106 | A sequence of only list and lookup calls leaves the catalog exactly as it was. |

## Left out

- Express application setup, the `bodyParser.json()` middleware, route
  registration and method/path dispatch, `app.listen` on port 8082 and the
  `console.log` lines: framework plumbing and I/O. Each route is a separately
  named function instead.
- The async wrapper and `async` handlers: nothing in them awaits, so each
  handler runs to completion. Concurrency is not modelled.
- The seed list and the `Car` type from `./cars`: `./cars` is not part of this
  model. The starting catalog is a parameter, and `Car` is declared here with
  the five fields the handlers use.
- JSON serialisation of the response bodies: a body is the value that would
  be serialised.
- Request values that are not strings (or, for cost, not integers): query
  parameters given as arrays or objects, and non-string JSON values in the
  body, such as a numeric name, `false` or `null`. Their truthiness and string
  form come from JavaScript and the query parser, which are not modelled.
  Fractional and NaN costs are left out for the same reason.
- Malformed JSON bodies: the body parser rejects them before any handler
  runs.
- ServerProperties.LookupAfterCreate: holds only for a string `id`. A create
  body with a JSON-number id (`{"id": 5, ...}`) passes the truthiness check
  and stores the number, but the path parameter of a later lookup is the
  string `"5"`, and the strict equality of the filter makes the lookup
  answer 404. Non-string ids are not modelled.
- ServerProperties.ListAfterCreate: holds only for a string `make`. A car
  created with a JSON-number make is never listed by `?make=`, because the
  query parameter is a string and the filter compares strictly. Non-string
  makes are not modelled.
