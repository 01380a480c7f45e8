/** A run of the service: the store threaded through a sequence of handled
    requests, one after another, starting from the seeded store. */
module Server {
  import opened Store
  import opened Handlers

  /** The five routes whose handlers read or write the store. */
  datatype Endpoint = ListAll | AddOne | GetOne | DeleteOne | UpdateOne

  /** One handled request: where it was routed, the request itself and
      whether marshalling its response payload succeeds. */
  datatype Call = Call(endpoint: Endpoint, req: Request, marshals: bool)

  /** The store after one call. The listing handler never writes (its
      contract says so), so its store is the one it was given. */
  function StoreAfter(c: Call, db: Db): (db': Db)
    ensures KeyedById(db) ==> KeyedById(db')
    ensures c.endpoint in {ListAll, GetOne} ==> db' == db
  {
    match c.endpoint
    case ListAll => db
    case AddOne => AddProduct(c.req, db).db
    case GetOne => GetProduct(c.req, db, c.marshals).db
    case DeleteOne => DeleteProduct(c.req, db, c.marshals).db
    case UpdateOne => UpdateProduct(c.req, db, c.marshals).db
  }

  /** The store after handling `calls` in order. */
  function Replay(calls: seq<Call>, db: Db): Db
    decreases |calls|
  {
    if calls == [] then db else Replay(calls[1..], StoreAfter(calls[0], db))
  }

  /** Every handler keeps each record filed under its own id, so any run
      does too. */
  lemma {:induction false} ReplayKeepsKeyedById(calls: seq<Call>, db: Db)
    requires KeyedById(db)
    ensures KeyedById(Replay(calls, db))
    decreases |calls|
  {
    if calls != [] {
      ReplayKeepsKeyedById(calls[1..], StoreAfter(calls[0], db));
    }
  }

  /** Every store the service can reach from its seed satisfies the invariant. */
  lemma ReachableStoresKeyedById(calls: seq<Call>)
    ensures KeyedById(Replay(calls, Seed()))
  {
    ReplayKeepsKeyedById(calls, Seed());
  }
}
