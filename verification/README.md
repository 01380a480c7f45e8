# Product store service: a Dafny model

This project models the core of `basic-rest`, a small Go web service that keeps
product records (`id`, `name`, `quantity`) in one global in-memory map and
exposes five handlers over it: list all products, add a product, get one
product, delete one product, and update one product. The model covers only the
store and the handlers' decision chains, and it is sequential. For each handler
it fixes the order of the checks (HTTP method, then the `id` query key, then the
lookup, then body decoding, then the write), the status code and message each
branch answers with, which keys are written, and what stays unchanged.

Layout:

- `wrappers.dfy`, module `Wrappers`: `Option`.
- `store.dfy`, module `Store`: `Product`, the store type `Db` (a
  `map<string, Product>`), the seed records, the store invariant `KeyedById`
  (every record sits under its own id), and the map primitives the handlers use
  (`Lookup`, `Put`, `Remove`).
- `handlers.dfy`, module `Handlers`: the request and response shapes and the
  five handlers. A handler takes `(request, store)` and returns a `Reply` that
  holds the response and the next store. A `Request` holds:
  - the HTTP method (`verb`);
  - the parsed query, as a map from key to a non-empty list of values;
  - the body as the JSON decoder delivered it: `Some(product)`, or `None` if
    decoding failed.

  Whether `json.Marshal` succeeds arrives as the flag `marshals`. The listing
  handler is a method: Go's map iteration order is unspecified, so the model
  picks the next key arbitrarily.
- `server.dfy`, module `Server`: a run of the service, meaning a sequence of
  handled requests applied one after another to the store, plus the proof that
  every store reachable from the seed keeps the invariant.
- `properties.dfy`, module `Properties`: lemmas that relate the handlers to
  each other, such as round trips, frame conditions and status codes.

Status codes are the `net/http` constants: 200, 201, 400, 405 and 500. The
message texts are exactly the ones the handlers send (see `Handlers.Text`).

Notes on the code:

- Get, delete and update of an absent id answer 200 with the message
  `product not found` (main.go:102-107, 134-139, 168-173).
- Delete removes the record before marshalling it (main.go:141 before 143),
  and update writes the record before marshalling it (main.go:191 before
  193). So a marshal failure answers 500 with the write kept; see
  `Properties.MarshalFailureAfterWrite`. For this struct type `json.Marshal`
  cannot actually fail.
- Update files the looked-up record back under the record's own `ID`, not
  under the queried id (main.go:191). The two agree because of the store
  invariant; `Properties.UpdateFilesUnderRecordId` states what happens in a
  store where they differ.
- The update handler's decode failure sends `error when parsing product`
  (main.go:183); the add handler's sends `error when parsing data`
  (main.go:76).

## Model

| member | source | states |
|---|---|---|
| Store.Seed | main.go:29-30 | the starting store holds exactly the keys "001" and "002", and each record sits under its own id |
| Store.Lookup | main.go:102-103 | a record is found exactly when the id is a key, the record found is the one stored there, and under the invariant it carries the looked-up id |
| Store.Put | main.go:81 | a write adds the product's id to the keys, stores the product there, changes no other key, and keeps the invariant |
| Store.Remove | main.go:141 | a delete removes exactly the given key, keeps every other record unchanged, and keeps the invariant |
| Handlers.Text | main.go:40-195 | every message tag is sent as the non-empty literal the handlers write ("invalid http method", "required product id", "product not found", "error when parsing data", "error when parsing product", "success create product") |
| Handlers.TextInjective | main.go:40-195 | distinct message tags are sent as distinct texts |
| Handlers.GetProducts | main.go:37-59 | listing never writes; a wrong method gives 405 "invalid http method"; a marshal failure gives 500; otherwise 200 with the records of an enumeration that visits every key exactly once, in unspecified order |
| Handlers.AddProduct | main.go:61-86 | status is 201 exactly when the method is POST and the body decoded; then the message is "success create product" and the store is the old store with the product put under its own id; any other outcome leaves the store unchanged; the invariant is preserved |
| Handlers.GetProduct | main.go:88-117 | get never writes; a product is returned exactly when the method is GET, an `id` key is present, its first value is a stored id, and marshalling succeeds; the product returned is then the record stored under that id, with status 200; a found record that fails to marshal is answered 500 "error when parsing data" |
| Handlers.DeleteProduct | main.go:119-151 | delete only ever shrinks the store and never alters a surviving record; the store changes only for a DELETE with an `id`, and then exactly that key is removed; a returned product is the record that was stored under the id; the invariant is preserved |
| Handlers.UpdateProduct | main.go:153-202 | update writes only for a PUT with an `id` that is stored and a body that decoded; under the invariant it keeps the key set; a returned product is the stored record with only name and quantity taken from the body, with status 200, and it is what the store now holds; the invariant is preserved |
| Server.StoreAfter | main.go:37-202 | one handled request keeps the invariant, and listing or getting leaves the store as it was |
| Server.ReplayKeepsKeyedById | main.go:81-191 | any sequence of handled requests started from a store that satisfies the invariant ends in a store that satisfies it |
| Server.ReachableStoresKeyedById | main.go:17-30 | every store reachable from the seed files each record under its own id |
| Properties.WrongMethodRejected | main.go:62-159 | get, add, delete and update answer a wrong method with 405 "invalid http method" and leave the store unchanged |
| Properties.MissingIdRejected | main.go:95-165 | get, delete and update without an `id` query key answer 400 "required product id" and leave the store unchanged |
| Properties.HandlersReadOnlyFirstId | main.go:95-101 | of the query, get, add, delete and update read only whether an `id` key is present and its first value: requests agreeing on those, the method and the body get equal replies (the same check and choice recur at main.go:127-133 and 161-167) |
| Properties.EmptyIdPassesCheck | main.go:95-101 | an `id` key whose first value is empty is not rejected with 400; the empty string is looked up as an id |
| Properties.AbsentIdIsNotFound | main.go:102-173 | get, delete and update of an id with no record answer 200 "product not found" and leave the store unchanged; for update this holds whatever the body is, because the lookup comes before decoding |
| Properties.DecodeFailureLeavesStore | main.go:74-186 | a body that fails to decode gives 500 and no write: in add always, in update once the id has been found |
| Properties.AddThenGet | main.go:74-116 | after a successful add, a get of the product's id returns 200 with a record equal to the added product in every field |
| Properties.AddTwiceKeepsSecond | main.go:81 | two adds under one id leave the same reply as the second add alone, and the record under that id is the second payload |
| Properties.UpdateReplacesNameAndQuantity | main.go:167-200 | under the invariant (so on every reachable store), an update of a stored id keeps the key set, stores the record with the same id and the body's name and quantity, leaves every other key untouched, and returns that record with 200 (or 500 if marshalling fails, with the write done) |
| Properties.UpdateIgnoresBodyId | main.go:188-189 | the id field of an update's body has no effect on the reply or the store |
| Properties.UpdateThenGet | main.go:101-191 | under the invariant (so on every reachable store), a get after an update of a stored id returns the same id with the new name and quantity |
| Properties.DeleteRemovesExactlyKey | main.go:133-150 | a delete of a stored id removes exactly that key, keeps every other record, and returns the removed record with 200 |
| Properties.DeleteThenGet | main.go:101-141 | after a delete, a get of the deleted id answers "product not found" while a get of any other stored id returns its old record |
| Properties.UpdateFailuresLookAlike | main.go:181-198 | under the invariant, update answers a decode failure and a marshal failure with the same 500 "error when parsing product", though only the marshal failure has written the store |
| Properties.MarshalFailureAfterWrite | main.go:141-198 | when marshalling fails, delete and update answer 500 but their write to the store has already been made |
| Properties.UpdateFilesUnderRecordId | main.go:167-191 | for any store where the queried key holds a record with a different id, an update leaves the queried key as it was, writes the record with the body's name and quantity under the record's own id, and adds that id to the keys |
| Properties.UpdateFilesUnderRecordIdExample | main.go:191 | in the store where "a" holds a record with id "b", an update of "a" leaves "a" alone and writes "b" |
| Properties.ListingUnderKeyedById | main.go:45-58 | under the invariant, a listing equals the stored records as a multiset, each element is the record stored under its own id, and no id appears twice |
| Properties.EndToEndExample | main.go:61-202 | on an empty store the sequence create, get, update, delete, get answers 201, the created record, the renamed record, the removed record, and finally "product not found" with an empty store |

## Left out

- The `/` handler (main.go:32-35). It always answers "server is up", and which
  paths it receives depends on how the `net/http` mux matches prefixes.
- Request routing, `SetJSONResp` (the content-type header and the body write,
  main.go:20-24), closing the request body, `ListenAndServe`, and the process
  exit (main.go:204-209). These are I/O and library calls.
- JSON decoding and encoding internals. The decoded body is an input of type
  `Option<Product>`, and the success of `json.Marshal` is an input flag. The
  bytes on the wire are not modelled. For example, an empty listing goes out as
  `null`, which the model does not represent.
- Concurrency. The global map has no synchronisation (main.go:17); the
  model is sequential, and a run of the service (`Server.Replay`) is one
  request after another.
- Go's map iteration order in the listing. It is an arbitrary choice in
  `Handlers.GetProducts`, and its contract fixes the records only up to order.
- Server.StoreAfter: for the listing route it uses the unchanged store
  directly and does not call `Handlers.GetProducts`, because that handler is a
  method. Its contract guarantees that the store is unchanged.
- Quantity validation. The source does none, so the quantity is an unbounded
  `int`. A value that does not fit Go's `int` is a decode failure, which is
  covered by the `None` body.
