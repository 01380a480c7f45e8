/** The in-memory product store: the service's one global map from product
    identifier to product record, with the primitive reads and writes the
    handlers perform on it. */
module Store {
  import opened Wrappers

  /** One product record, the JSON object `{id, name, quantity}`.
      The quantity is not validated, so any integer is allowed. */
  datatype Product = Product(id: string, name: string, quantity: int)

  /** The store: product identifier to product record. */
  type Db = map<string, Product>

  /** The store invariant: every record is filed under its own identifier. */
  ghost predicate KeyedById(db: Db) {
    forall k :: k in db ==> db[k].id == k
  }

  /** The two records the service starts with. */
  function Seed(): (db: Db)
    ensures KeyedById(db)
    ensures db.Keys == {"001", "002"}
  {
    map["001" := Product("001", "Samsung Galaxy S1", 10),
        "002" := Product("002", "Nokia 6", 5)]
  }

  /** The record stored under `id`, if any (Go's two-value map index). */
  function Lookup(db: Db, id: string): (r: Option<Product>)
    ensures r.Some? <==> id in db
    ensures r.Some? ==> r.value == db[id]
    ensures KeyedById(db) && r.Some? ==> r.value.id == id
  {
    if id in db then Some(db[id]) else None
  }

  /** Files `p` under its own identifier, replacing any record already
      there in full. */
  function Put(db: Db, p: Product): (db': Db)
    ensures db'.Keys == db.Keys + {p.id}
    ensures db'[p.id] == p
    ensures forall k :: k in db && k != p.id ==> db'[k] == db[k]
    ensures KeyedById(db) ==> KeyedById(db')
  {
    db[p.id := p]
  }

  /** Removes the record under `id`; the rest of the store is untouched. */
  function Remove(db: Db, id: string): (db': Db)
    ensures db'.Keys == db.Keys - {id}
    ensures forall k :: k in db' ==> db'[k] == db[k]
    ensures KeyedById(db) ==> KeyedById(db')
  {
    db - {id}
  }
}
