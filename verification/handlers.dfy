/** The five request handlers of the product service, each taking a request
    and the current store to a response and the next store: four pure
    functions, and a method for the listing, whose order is unspecified.
    The JSON decoder's verdict on the body arrives already decoded, as an
    `Option`; whether `json.Marshal` succeeds on the payload arrives as the
    flag `marshals`. */
module Handlers {
  import opened Wrappers
  import opened Store

  const StatusOK := 200
  const StatusCreated := 201
  const StatusBadRequest := 400
  const StatusMethodNotAllowed := 405
  const StatusInternalServerError := 500

  const MethodGet: string := "GET"
  const MethodPost: string := "POST"
  const MethodPut: string := "PUT"
  const MethodDelete: string := "DELETE"

  /** The fixed messages the handlers answer with. */
  datatype Message =
    | InvalidMethod
    | RequiredId
    | NotFound
    | DataParseError
    | ProductParseError
    | CreateSuccess

  /** The `message` field each tag is sent as. */
  function Text(m: Message): (r: string)
    ensures |r| > 0
  {
    match m
    case InvalidMethod => "invalid http method"
    case RequiredId => "required product id"
    case NotFound => "product not found"
    case DataParseError => "error when parsing data"
    case ProductParseError => "error when parsing product"
    case CreateSuccess => "success create product"
  }

  /** Distinct tags are sent as distinct texts. */
  lemma TextInjective(m1: Message, m2: Message)
    ensures Text(m1) == Text(m2) ==> m1 == m2
  {
  }

  /** A response body: a message object, one product, or a product list. */
  datatype Payload = Msg(message: Message) | One(product: Product) | Many(products: seq<Product>)

  datatype Response = Response(status: int, payload: Payload)

  /** The values of one query key; URL query parsing never yields an empty list. */
  type Values = vs: seq<string> | |vs| > 0 witness [""]

  /** One request as the handlers see it: its HTTP method, its parsed query and
      the outcome of decoding its body as a product. */
  datatype Request = Request(verb: string, query: map<string, Values>, body: Option<Product>)

  /** What a handler produces: the response and the store after it. */
  datatype Reply = Reply(response: Response, db: Db)

  /** A message response that leaves the store as it is. */
  function Answer(db: Db, status: int, m: Message): Reply {
    Reply(Response(status, Msg(m)), db)
  }

  /** The `id` query parameter: only its presence is checked, and the first
      of its values is the one used, even when it is empty. */
  function QueryId(query: map<string, Values>): Option<string> {
    if "id" in query then Some(query["id"][0]) else None
  }

  /** `GET /get-product?id=...`: the record stored under the id. */
  function GetProduct(req: Request, db: Db, marshals: bool): (reply: Reply)
    ensures reply.db == db
    ensures reply.response.payload.One? <==>
              req.verb == MethodGet && marshals && QueryId(req.query).Some? && QueryId(req.query).value in db
    ensures reply.response.payload.One? ==>
              reply.response.status == StatusOK && QueryId(req.query).Some?
              && Lookup(db, QueryId(req.query).value) == Some(reply.response.payload.product)
    ensures req.verb == MethodGet && QueryId(req.query).Some? && QueryId(req.query).value in db && !marshals ==>
              reply.response == Response(StatusInternalServerError, Msg(DataParseError))
  {
    if req.verb != MethodGet then Answer(db, StatusMethodNotAllowed, InvalidMethod)
    else match QueryId(req.query)
      case None => Answer(db, StatusBadRequest, RequiredId)
      case Some(id) =>
        match Lookup(db, id)
        case None => Answer(db, StatusOK, NotFound)
        case Some(p) =>
          if !marshals then Answer(db, StatusInternalServerError, DataParseError)
          else Reply(Response(StatusOK, One(p)), db)
  }

  /** `POST /add-product`: files the decoded body under its own id. */
  function AddProduct(req: Request, db: Db): (reply: Reply)
    ensures KeyedById(db) ==> KeyedById(reply.db)
    ensures reply.response.status == StatusCreated <==> req.verb == MethodPost && req.body.Some?
    ensures reply.response.status == StatusCreated ==>
              reply.response.payload == Msg(CreateSuccess) && reply.db == Put(db, req.body.value)
    ensures reply.response.status != StatusCreated ==> reply.db == db
  {
    if req.verb != MethodPost then Answer(db, StatusMethodNotAllowed, InvalidMethod)
    else match req.body
      case None => Answer(db, StatusInternalServerError, DataParseError)
      case Some(p) => Answer(Put(db, p), StatusCreated, CreateSuccess)
  }

  /** `DELETE /delete-products?id=...`: removes the record under the id and
      returns it. The store is changed before the record is marshalled. */
  function DeleteProduct(req: Request, db: Db, marshals: bool): (reply: Reply)
    ensures KeyedById(db) ==> KeyedById(reply.db)
    ensures reply.db.Keys <= db.Keys
    ensures forall k :: k in reply.db ==> reply.db[k] == db[k]
    ensures reply.db != db ==>
              req.verb == MethodDelete && QueryId(req.query).Some?
              && reply.db == Remove(db, QueryId(req.query).value)
    ensures reply.response.payload.One? ==>
              reply.response.status == StatusOK && QueryId(req.query).Some?
              && Lookup(db, QueryId(req.query).value) == Some(reply.response.payload.product)
              && reply.db == Remove(db, QueryId(req.query).value)
  {
    if req.verb != MethodDelete then Answer(db, StatusMethodNotAllowed, InvalidMethod)
    else match QueryId(req.query)
      case None => Answer(db, StatusBadRequest, RequiredId)
      case Some(id) =>
        match Lookup(db, id)
        case None => Answer(db, StatusOK, NotFound)
        case Some(p) =>
          var db' := Remove(db, id);
          if !marshals then Answer(db', StatusInternalServerError, DataParseError)
          else Reply(Response(StatusOK, One(p)), db')
  }

  /** `PUT /update-products?id=...`: looks the record up first, then decodes
      the body, then takes only the body's name and quantity and files the
      record back under the record's own id. */
  function UpdateProduct(req: Request, db: Db, marshals: bool): (reply: Reply)
    ensures KeyedById(db) ==> KeyedById(reply.db)
    ensures KeyedById(db) ==> reply.db.Keys == db.Keys
    ensures reply.db != db ==>
              req.verb == MethodPut && QueryId(req.query).Some?
              && QueryId(req.query).value in db && req.body.Some?
    ensures reply.response.payload.One? ==>
              var p := reply.response.payload.product;
              && reply.response.status == StatusOK
              && QueryId(req.query).Some? && QueryId(req.query).value in db && req.body.Some?
              && p == db[QueryId(req.query).value].(name := req.body.value.name,
                                                     quantity := req.body.value.quantity)
              && reply.db == Put(db, p)
  {
    if req.verb != MethodPut then Answer(db, StatusMethodNotAllowed, InvalidMethod)
    else match QueryId(req.query)
      case None => Answer(db, StatusBadRequest, RequiredId)
      case Some(id) =>
        match Lookup(db, id)
        case None => Answer(db, StatusOK, NotFound)
        case Some(p) =>
          match req.body
          case None => Answer(db, StatusInternalServerError, ProductParseError)
          case Some(b) =>
            var updated := p.(name := b.name, quantity := b.quantity);
            var db' := Put(db, updated);
            if !marshals then Answer(db', StatusInternalServerError, ProductParseError)
            else Reply(Response(StatusOK, One(updated)), db')
  }

  /** A listing of the store: the records of some enumeration of its keys,
      visiting each key exactly once, in no particular order. */
  ghost predicate IsListing(ps: seq<Product>, db: Db) {
    exists order :: EnumeratesKeys(order, db) && Follows(ps, order, db)
  }

  /** `order` holds every key of `db` exactly once. */
  ghost predicate EnumeratesKeys(order: seq<string>, db: Db) {
    && (forall i :: 0 <= i < |order| ==> order[i] in db)
    && (forall i, j :: 0 <= i < j < |order| ==> order[i] != order[j])
    && (forall k :: k in db ==> k in order)
  }

  /** `ps` is the sequence of records found under the keys of `order`. */
  ghost predicate Follows(ps: seq<Product>, order: seq<string>, db: Db) {
    && |ps| == |order|
    && forall i :: 0 <= i < |order| ==> order[i] in db && ps[i] == db[order[i]]
  }

  /** `GET /get-products`: every record, in the map's unspecified
      iteration order (an arbitrary choice of the next key here). */
  method GetProducts(req: Request, db: Db, marshals: bool) returns (reply: Reply)
    ensures reply.db == db
    ensures req.verb != MethodGet ==> reply.response == Response(StatusMethodNotAllowed, Msg(InvalidMethod))
    ensures req.verb == MethodGet && !marshals ==>
              reply.response == Response(StatusInternalServerError, Msg(DataParseError))
    ensures req.verb == MethodGet && marshals ==>
              && reply.response.status == StatusOK
              && reply.response.payload.Many?
              && IsListing(reply.response.payload.products, db)
  {
    if req.verb != MethodGet {
      return Answer(db, StatusMethodNotAllowed, InvalidMethod);
    }
    var products: seq<Product> := [];
    ghost var order: seq<string> := [];
    var remaining := db.Keys;
    while remaining != {}
      invariant remaining <= db.Keys
      invariant Follows(products, order, db)
      invariant forall i :: 0 <= i < |order| ==> order[i] !in remaining
      invariant forall i, j :: 0 <= i < j < |order| ==> order[i] != order[j]
      invariant forall k :: k in db ==> k in remaining || k in order
      decreases remaining
    {
      var k :| k in remaining;
      products := products + [db[k]];
      order := order + [k];
      remaining := remaining - {k};
    }
    assert EnumeratesKeys(order, db);
    if !marshals {
      return Answer(db, StatusInternalServerError, DataParseError);
    }
    return Reply(Response(StatusOK, Many(products)), db);
  }
}
