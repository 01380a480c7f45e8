/** Properties that relate the handlers to one another and to the store:
    the status each decision step answers with, what each handler writes
    and leaves alone, and the round trips a client can observe. */
module Properties {
  import opened Wrappers
  import opened Store
  import opened Handlers

  /** A request with a method other than its route's is answered 405 and
      never touches the store. The listing handler's own contract states
      the same for `GET /get-products`. */
  lemma WrongMethodRejected(req: Request, db: Db, marshals: bool)
    ensures req.verb != MethodGet ==>
              GetProduct(req, db, marshals) == Answer(db, StatusMethodNotAllowed, InvalidMethod)
    ensures req.verb != MethodPost ==>
              AddProduct(req, db) == Answer(db, StatusMethodNotAllowed, InvalidMethod)
    ensures req.verb != MethodDelete ==>
              DeleteProduct(req, db, marshals) == Answer(db, StatusMethodNotAllowed, InvalidMethod)
    ensures req.verb != MethodPut ==>
              UpdateProduct(req, db, marshals) == Answer(db, StatusMethodNotAllowed, InvalidMethod)
  {
  }

  /** Without an `id` query key, get, delete and update answer 400 and
      leave the store alone. */
  lemma MissingIdRejected(req: Request, db: Db, marshals: bool)
    requires "id" !in req.query
    ensures req.verb == MethodGet ==>
              GetProduct(req, db, marshals) == Answer(db, StatusBadRequest, RequiredId)
    ensures req.verb == MethodDelete ==>
              DeleteProduct(req, db, marshals) == Answer(db, StatusBadRequest, RequiredId)
    ensures req.verb == MethodPut ==>
              UpdateProduct(req, db, marshals) == Answer(db, StatusBadRequest, RequiredId)
  {
  }

  /** An `id` key whose first value is empty passes the presence check:
      the empty string is looked up like any other id. */
  lemma EmptyIdPassesCheck(req: Request, db: Db, marshals: bool)
    requires "id" in req.query && req.query["id"][0] == ""
    ensures req.verb == MethodGet ==> GetProduct(req, db, marshals).response.status != StatusBadRequest
    ensures req.verb == MethodDelete ==> DeleteProduct(req, db, marshals).response.status != StatusBadRequest
    ensures req.verb == MethodPut ==> UpdateProduct(req, db, marshals).response.status != StatusBadRequest
    ensures req.verb == MethodGet && "" in db && marshals ==>
              GetProduct(req, db, marshals).response == Response(StatusOK, One(db[""]))
  {
  }

  /** Of the query, the handlers read only whether an `id` key is present
      and the first of its values: two requests that agree on those, on
      the method and on the body get the same reply from every handler. */
  lemma HandlersReadOnlyFirstId(r1: Request, r2: Request, db: Db, marshals: bool)
    requires r1.verb == r2.verb && r1.body == r2.body
    requires "id" in r1.query <==> "id" in r2.query
    requires "id" in r1.query ==> r1.query["id"][0] == r2.query["id"][0]
    ensures GetProduct(r1, db, marshals) == GetProduct(r2, db, marshals)
    ensures AddProduct(r1, db) == AddProduct(r2, db)
    ensures DeleteProduct(r1, db, marshals) == DeleteProduct(r2, db, marshals)
    ensures UpdateProduct(r1, db, marshals) == UpdateProduct(r2, db, marshals)
  {
  }

  /** Update answers a body that fails to decode and a record that fails to
      marshal alike, with 500 "error when parsing product"; only the second
      has written the store, so on a store that keeps the invariant the
      answer does not tell the client whether the write happened. */
  lemma UpdateFailuresLookAlike(req: Request, db: Db)
    requires KeyedById(db)
    requires req.verb == MethodPut && req.body.Some?
    requires QueryId(req.query).Some? && QueryId(req.query).value in db
    requires req.body.value.name != db[QueryId(req.query).value].name
    ensures var undecoded := UpdateProduct(req.(body := None), db, true);
            var unmarshalled := UpdateProduct(req, db, false);
            && undecoded.response == unmarshalled.response
            && undecoded.response == Response(StatusInternalServerError, Msg(ProductParseError))
            && undecoded.db == db
            && unmarshalled.db != db
  {
    var id := QueryId(req.query).value;
    assert UpdateProduct(req, db, false).db[id].name != db[id].name;
  }

  /** Absence is not failure: an id with no record is answered 200
      "product not found" by get, delete and update, with no write. Update
      looks the id up before decoding its body, so this holds whatever the
      body is. */
  lemma AbsentIdIsNotFound(req: Request, db: Db, marshals: bool)
    requires QueryId(req.query).Some? && QueryId(req.query).value !in db
    ensures req.verb == MethodGet ==> GetProduct(req, db, marshals) == Answer(db, StatusOK, NotFound)
    ensures req.verb == MethodDelete ==> DeleteProduct(req, db, marshals) == Answer(db, StatusOK, NotFound)
    ensures req.verb == MethodPut ==> UpdateProduct(req, db, marshals) == Answer(db, StatusOK, NotFound)
  {
  }

  /** A body that fails to decode is answered 500 with no write: in add
      always, in update once the id has been found. */
  lemma DecodeFailureLeavesStore(req: Request, db: Db, marshals: bool)
    requires req.body.None?
    ensures req.verb == MethodPost ==>
              AddProduct(req, db) == Answer(db, StatusInternalServerError, DataParseError)
    ensures req.verb == MethodPut && QueryId(req.query).Some? && QueryId(req.query).value in db ==>
              UpdateProduct(req, db, marshals) == Answer(db, StatusInternalServerError, ProductParseError)
  {
  }

  /** A created product is fetched back equal in every field. */
  lemma AddThenGet(add: Request, get: Request, db: Db)
    requires add.verb == MethodPost && add.body.Some?
    requires get.verb == MethodGet && QueryId(get.query) == Some(add.body.value.id)
    ensures AddProduct(add, db).response == Response(StatusCreated, Msg(CreateSuccess))
    ensures GetProduct(get, AddProduct(add, db).db, true).response == Response(StatusOK, One(add.body.value))
  {
  }

  /** Creating under an id that is already taken replaces the earlier
      record wholesale: two creates under one id leave what the second
      alone would, exactly one record under that id, equal to the second
      payload. */
  lemma AddTwiceKeepsSecond(first: Request, second: Request, db: Db)
    requires first.verb == MethodPost && first.body.Some?
    requires second.verb == MethodPost && second.body.Some?
    requires first.body.value.id == second.body.value.id
    ensures AddProduct(second, AddProduct(first, db).db) == AddProduct(second, db)
    ensures AddProduct(second, db).db[second.body.value.id] == second.body.value
  {
  }

  /** Update of a stored id replaces only the name and quantity, keeps the
      record's id, touches no other key, and returns the updated record. */
  lemma UpdateReplacesNameAndQuantity(req: Request, db: Db, marshals: bool)
    requires KeyedById(db)
    requires req.verb == MethodPut && req.body.Some?
    requires QueryId(req.query).Some? && QueryId(req.query).value in db
    ensures var id, b := QueryId(req.query).value, req.body.value;
            var reply := UpdateProduct(req, db, marshals);
            && reply.db.Keys == db.Keys
            && reply.db[id] == Product(id, b.name, b.quantity)
            && (forall k :: k in db && k != id ==> reply.db[k] == db[k])
            && (marshals ==> reply.response == Response(StatusOK, One(Product(id, b.name, b.quantity))))
            && (!marshals ==> reply.response == Response(StatusInternalServerError, Msg(ProductParseError)))
  {
  }

  /** The id field of an update's body plays no part. */
  lemma UpdateIgnoresBodyId(req: Request, db: Db, marshals: bool, otherId: string)
    requires req.body.Some?
    ensures UpdateProduct(req.(body := Some(req.body.value.(id := otherId))), db, marshals)
         == UpdateProduct(req, db, marshals)
  {
  }

  /** A fetch after an update sees the new name and quantity under the
      same id. */
  lemma UpdateThenGet(upd: Request, get: Request, db: Db, marshals: bool)
    requires KeyedById(db)
    requires upd.verb == MethodPut && upd.body.Some?
    requires QueryId(upd.query).Some? && QueryId(upd.query).value in db
    requires get.verb == MethodGet && QueryId(get.query) == QueryId(upd.query)
    ensures var id := QueryId(upd.query).value;
            GetProduct(get, UpdateProduct(upd, db, marshals).db, true).response
              == Response(StatusOK, One(Product(id, upd.body.value.name, upd.body.value.quantity)))
  {
  }

  /** Delete of a stored id removes exactly that key, keeps every other
      record, and returns the removed record. */
  lemma DeleteRemovesExactlyKey(req: Request, db: Db, marshals: bool)
    requires req.verb == MethodDelete
    requires QueryId(req.query).Some? && QueryId(req.query).value in db
    ensures var id := QueryId(req.query).value;
            var reply := DeleteProduct(req, db, marshals);
            && reply.db.Keys == db.Keys - {id}
            && (forall k :: k in reply.db ==> reply.db[k] == db[k])
            && (marshals ==> reply.response == Response(StatusOK, One(db[id])))
  {
  }

  /** After a delete, the deleted id is not found while every other stored
      id is still fetched with its old record. */
  lemma DeleteThenGet(del: Request, get: Request, db: Db, marshals: bool)
    requires del.verb == MethodDelete && QueryId(del.query).Some?
    requires get.verb == MethodGet && QueryId(get.query).Some?
    ensures var id, k := QueryId(del.query).value, QueryId(get.query).value;
            var after := DeleteProduct(del, db, marshals).db;
            && (k == id ==> GetProduct(get, after, true) == Answer(after, StatusOK, NotFound))
            && (k != id && k in db ==> GetProduct(get, after, true).response == Response(StatusOK, One(db[k])))
  {
  }

  /** Delete and update write the store before the payload is marshalled,
      so a marshal failure answers 500 while the write stays in place. */
  lemma MarshalFailureAfterWrite(req: Request, db: Db)
    requires QueryId(req.query).Some? && QueryId(req.query).value in db
    ensures var id := QueryId(req.query).value;
            req.verb == MethodDelete ==>
              DeleteProduct(req, db, false) == Answer(Remove(db, id), StatusInternalServerError, DataParseError)
    ensures var id := QueryId(req.query).value;
            req.verb == MethodPut && req.body.Some? ==>
              UpdateProduct(req, db, false)
                == Answer(Put(db, db[id].(name := req.body.value.name, quantity := req.body.value.quantity)),
                          StatusInternalServerError, ProductParseError)
  {
  }

  /** Update files the record back under the record's own id, not under the
      queried one; the two agree only because of the store invariant. Where
      a key holds a record with another id, an update leaves that key as it
      was and writes the updated record under the record's id. */
  lemma UpdateFilesUnderRecordId(req: Request, db: Db, marshals: bool)
    requires req.verb == MethodPut && req.body.Some?
    requires QueryId(req.query).Some? && QueryId(req.query).value in db
    requires db[QueryId(req.query).value].id != QueryId(req.query).value
    ensures var id, b := QueryId(req.query).value, req.body.value;
            var out := UpdateProduct(req, db, marshals).db;
            && out.Keys == db.Keys + {db[id].id}
            && out[id] == db[id]
            && out[db[id].id] == db[id].(name := b.name, quantity := b.quantity)
  {
  }

  /** One such store: the key "a" holds a record with id "b". */
  lemma UpdateFilesUnderRecordIdExample()
    ensures var db := map["a" := Product("b", "x", 1)];
            var req := Request(MethodPut, map["id" := ["a"]], Some(Product("", "y", 2)));
            UpdateProduct(req, db, true).db == map["a" := Product("b", "x", 1), "b" := Product("b", "y", 2)]
  {
  }

  /** Under the store invariant a listing is the stored records as a bag:
      each record exactly once, ids pairwise distinct. */
  lemma ListingUnderKeyedById(ps: seq<Product>, db: Db)
    requires KeyedById(db) && IsListing(ps, db)
    ensures multiset(ps) == multiset(db.Values)
    ensures forall i :: 0 <= i < |ps| ==> Lookup(db, ps[i].id) == Some(ps[i])
    ensures forall i, j :: 0 <= i < j < |ps| ==> ps[i].id != ps[j].id
  {
    var order :| EnumeratesKeys(order, db) && Follows(ps, order, db);
    FollowsBag(ps, order, db);
    assert Records(order, db) == db.Values by {
      forall v | v in db.Values
        ensures v in Records(order, db)
      {
        var k :| k in db && db[k] == v;
        assert k in order;
      }
    }
  }

  /** The records found under the keys of `order`. */
  ghost function Records(order: seq<string>, db: Db): set<Product> {
    set k | k in order && k in db :: db[k]
  }

  /** Extending a key sequence by one stored key adds its record. */
  lemma RecordsSnoc(rest: seq<string>, last: string, db: Db)
    requires last in db
    ensures Records(rest + [last], db) == Records(rest, db) + {db[last]}
  {
    var order := rest + [last];
    forall k | k in order
      ensures k in rest || k == last
    {
      var i :| 0 <= i < |order| && order[i] == k;
      if i < |rest| {
        assert rest[i] == k;
      }
    }
  }

  /** The bag of records along a key sequence without repeats is the set of
      those records, when each record carries its own key. */
  lemma {:induction false} FollowsBag(ps: seq<Product>, order: seq<string>, db: Db)
    requires KeyedById(db) && Follows(ps, order, db)
    requires forall i, j :: 0 <= i < j < |order| ==> order[i] != order[j]
    ensures multiset(ps) == multiset(Records(order, db))
    decreases |order|
  {
    if order == [] {
      assert Records(order, db) == {};
    } else {
      var n := |order| - 1;
      var last := order[n];
      var rest, restPs := order[..n], ps[..n];
      assert order == rest + [last];
      assert ps == restPs + [db[last]];
      assert Follows(restPs, rest, db);
      FollowsBag(restPs, rest, db);
      var before := Records(rest, db);
      assert db[last] !in before;
      RecordsSnoc(rest, last, db);
      assert multiset(before + {db[last]}) == multiset(before) + multiset{db[last]};
    }
  }

  /** The walkthrough of a client session on an empty store: create, fetch,
      update, delete, fetch again. */
  lemma EndToEndExample()
    ensures var created := Product("001", "Samsung Galaxy S1", 10);
            var renamed := Product("001", "Samsung Galaxy S2", 3);
            var q := map["id" := ["001"]];
            var add := AddProduct(Request(MethodPost, map[], Some(created)), map[]);
            var get1 := GetProduct(Request(MethodGet, q, None), add.db, true);
            var upd := UpdateProduct(Request(MethodPut, q, Some(Product("", "Samsung Galaxy S2", 3))), get1.db, true);
            var del := DeleteProduct(Request(MethodDelete, q, None), upd.db, true);
            var get2 := GetProduct(Request(MethodGet, q, None), del.db, true);
            && add.response == Response(StatusCreated, Msg(CreateSuccess))
            && get1.response == Response(StatusOK, One(created))
            && upd.response == Response(StatusOK, One(renamed))
            && del.response == Response(StatusOK, One(renamed))
            && get2.response == Response(StatusOK, Msg(NotFound))
            && get2.db == map[]
  {
  }
}
