# Employee directory: a Dafny model

This project models the data logic of a small employee-directory demo. It has two parts.

- **The Node.js microservice's directory.** This is the module-wide dictionary `emps.employees`. It maps id strings to records and is served by three REST handlers:
  - `GET /employees` lists every stored record.
  - `GET /employees/:empId` answers with one record, or calls `next()` when there is none.
  - `PUT /employees/:empId` stores the request body under the id unconditionally and echoes the body back.
- **The Oracle JET UI's employee model.** Its `parse` and `parseSave` copy `employeeId`, `firstName` and `lastName` out of a response object. Its `idAttribute` makes `employeeId` the identity.

Files:

- `wrappers.dfy`: `Option`.
- `json.dfy`: JSON values and JavaScript truthiness (`if (emp)`).
- `emps.dfy`: the directory. It has the map-level functions `Find`, `Stored` and `Replay` with their laws, and the class `Directory`. The class holds `employees` as a mutable field. Its `List`, `Get` and `Put` are proved against those functions. It ends with a client method for the seeded one-employee scenario.
- `emps_factory.dfy`: the UI projection.
- `round_trip.dfy`: the two parts together. A view record saved with PUT and fetched again parses to the same view.

Records are never validated by the service, so a stored record is any `Json.Value` and no schema is imposed. The directory loaded at startup is the `Directory` constructor's parameter.

The get handler tests `if (emp)`. So a stored falsy JSON value (`null`, `false`, `0`, `""`) is still listed, but a GET by its id is declined. "Get after put returns the body" therefore holds for truthy bodies only (`Emps.FindAfterStored`). Every JSON object is truthy (`Json.ObjectsAreTruthy`), so it holds for every object body.

## Model

| member | source | states |
|---|---|---|
| `Emps.Directory.constructor` | NodeJsMicroservice/routes/emps.js:11-12 | the directory starts out holding exactly the loaded mapping |
| `Emps.Directory.List` | NodeJsMicroservice/routes/emps.js:15-21 | the listing has one element per key, equal to the record stored under it, for some duplicate-free order of all keys; its length is the number of keys |
| `Emps.KeyOrderLength` | NodeJsMicroservice/routes/emps.js:16 | an order that names every key exactly once is as long as the key set is large |
| `Emps.ListingIsComplete` | NodeJsMicroservice/routes/emps.js:16-18 | a listing's length equals the key count; every stored record appears at its key's position; every element is a stored record |
| `Emps.Directory.Get` | NodeJsMicroservice/routes/emps.js:23-30 | the get handler answers with a record exactly when the id is a key of the current directory and its record is truthy, and that record is the stored one, unchanged |
| `Emps.Find` | NodeJsMicroservice/routes/emps.js:24-28 | a record is returned exactly when the id is a key and its record is truthy; a returned record is the stored one, unchanged |
| `Emps.AbsentIsNotFound` | NodeJsMicroservice/routes/emps.js:24-28 | an id that is not a key yields not-found, never a default record |
| `Emps.StoredObjectIsFound` | NodeJsMicroservice/routes/emps.js:24-26 | a stored object record is returned as stored |
| `Json.Truthy` | NodeJsMicroservice/routes/emps.js:25 | the `if (emp)` test: every array and object passes it, null never does |
| `Json.ObjectsAreTruthy` | NodeJsMicroservice/routes/emps.js:25 | every JSON object, even an empty one, passes the `if (emp)` test |
| `Json.FalsyValues` | NodeJsMicroservice/routes/emps.js:25 | exactly null, false, 0 and the empty string fail the `if (emp)` test |
| `Emps.Directory.Put` | NodeJsMicroservice/routes/emps.js:32-38 | stores the body under the id, echoes exactly that body, makes a truthy body findable, and leaves every other id's answer unchanged |
| `Emps.Stored` | NodeJsMicroservice/routes/emps.js:33-36 | the key set grows by the id alone; the id holds the body; every other key keeps its record; the count grows by one on a new key and is unchanged on an existing one |
| `Emps.FindAfterStored` | NodeJsMicroservice/routes/emps.js:24-36 | after a put, get on that id returns the body if it is truthy, and not-found otherwise |
| `Emps.FindOtherAfterStored` | NodeJsMicroservice/routes/emps.js:36 | a put does not change what get answers for any other id |
| `Emps.StoredIdempotent` | NodeJsMicroservice/routes/emps.js:36 | the same put applied twice gives the same directory as applying it once |
| `Emps.StoredOverwrites` | NodeJsMicroservice/routes/emps.js:36 | of two puts on one id, the second replaces the first entirely |
| `Emps.StoredCommutes` | NodeJsMicroservice/routes/emps.js:36 | puts on different ids give the same directory in either order |
| `Emps.MismatchedEmployeeIdAccepted` | NodeJsMicroservice/routes/emps.js:33-36 | for every directory and id, an object body whose employeeId differs from the URL id is stored and found under the URL id |
| `Emps.Replay` | NodeJsMicroservice/routes/emps.js:36 | a run of PUT requests handled in order never removes a key |
| `Emps.ReplayStep` | NodeJsMicroservice/routes/emps.js:32-38 | handling one more PUT request extends a run by one `Stored` on the directory reached so far |
| `Emps.ReplayUntouched` | NodeJsMicroservice/routes/emps.js:36 | an id no request in a run targets keeps its record, or stays absent |
| `Emps.ReplayLastWriteWins` | NodeJsMicroservice/routes/emps.js:36 | after a run, an id holds the body of the last request that targeted it |
| `Emps.NeverStoredNotFound` | NodeJsMicroservice/routes/emps.js:24-36 | an id absent at load time and never PUT is not found after any run of puts |
| `EmpsFactory.Field` | OracleJETUI/src/js/viewModels/empsFactory.js:16-20 | `response[name]` is defined exactly when the object has the field, and is then its value |
| `EmpsFactory.AsResponse` | OracleJETUI/src/js/viewModels/empsFactory.js:16-20 | the projected object has no attributes beyond employeeId, firstName and lastName |
| `EmpsFactory.ParseAsResponse` | OracleJETUI/src/js/viewModels/empsFactory.js:16-20 | parsing a projected record's object gives back that record |
| `EmpsFactory.Parse` | OracleJETUI/src/js/viewModels/empsFactory.js:15-21 | parse's result, as an object, is the response restricted to employeeId, firstName and lastName, with the same values |
| `EmpsFactory.ParseSave` | OracleJETUI/src/js/viewModels/empsFactory.js:23-29 | the save payload, as an object, is the record restricted to employeeId, firstName and lastName, with the same values |
| `EmpsFactory.ParseDropsOthers` | OracleJETUI/src/js/viewModels/empsFactory.js:16-20 | any other attribute of the response is dropped |
| `EmpsFactory.ParseSaveIsParse` | OracleJETUI/src/js/viewModels/empsFactory.js:23-29 | parseSave computes the same record as parse on every response |
| `EmpsFactory.ParseIdempotent` | OracleJETUI/src/js/viewModels/empsFactory.js:16-20 | applying parse to its own output returns that output unchanged |
| `EmpsFactory.Id` | OracleJETUI/src/js/viewModels/empsFactory.js:30 | a model's identity, read through its idAttribute, is its employeeId attribute |
| `EmpsFactory.IdIsEmployeeId` | OracleJETUI/src/js/viewModels/empsFactory.js:30 | a parsed model's identity is the response's own employeeId field |
| `RoundTrip.SaveBody` | OracleJETUI/src/js/viewModels/empsFactory.js:23-29 | the body the UI saves is a JSON object with no attributes beyond the three projected ones |
| `RoundTrip.SaveThenFetch` | NodeJsMicroservice/routes/emps.js:24-37 | a view record saved under an id is found again as the very body saved, and it parses to the same view |

## Left out

- Reading `data.json` with `fs.readFileSync` and `JSON.parse` at startup is file I/O. The loaded mapping is the constructor's parameter instead, and a missing or malformed file is not modelled.
- Express routing and `res.send`, `res.json` and `next()` are HTTP plumbing. Only their results are modelled: the list, the record, or `None` for the not-found path.
- `Emps.Directory.List`: the order of `Object.keys` is left unspecified. The method picks keys in an arbitrary order, and its contract speaks of membership and count.
- The `employees` object's prototype chain is not modelled. In JavaScript, ids such as `constructor` or `__proto__` would reach inherited properties. Here the dictionary is a plain map.
- A missing request body (`undefined` when no body parser ran) is not modelled. A PUT body is always a JSON value.
- JSON numbers are exact reals. The rounding of IEEE doubles is left out.
- Concurrency between requests is left out. The model is single-threaded, and a run of requests is a sequence (`Emps.Replay`).
- The Oracle JET machinery (`oj.Model.extend`, `oj.Collection.extend`, `urlRoot`, `url`, the fixed `resourceUrl`) is a foreign library plus HTTP. The factory is reduced to its two projections and its identity attribute.
- `NodeJsMicroservice/Gruntfile.js` is packaging configuration with no logic.
