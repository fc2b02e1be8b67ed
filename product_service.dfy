/** product-service.js: an auto-increment counter `productId` and an array
    `products`. Reading needs no token; adding, changing and deleting run
    `authorization(["admin"])`. */
module ProductService {
  import opened Values
  import opened Http
  import opened Records
  import opened Authorization

  const IdKey: string := "productId"
  const AdminRole: seq<string> := ["admin"]

  const ProductNotFound: string := "Product not found"
  const UpdateError: string := "There was an error updating the product"
  const ProductUpdated: string := "Product successfully updated"
  const ProductDeleted: string := "Product successfully deleted"

  /** The record POST / stores. */
  function NewProduct(productId: nat, body: Record): Record
  {
    map[IdKey := Num(productId), "prodName" := Get(body, "prodName"), "prodPrice" := Get(body, "prodPrice")]
  }

  // ---------------------------------------------------------------------
  // The routes, as functions from the store before to the outcome.

  /** POST / */
  function Create(s: Store, headers: map<string, string>, verify: Verifier, body: Record): Outcome
  {
    match Authorize(headers, AdminRole, verify)
    case Reject(r) => Outcome(s, Rejection(r))
    case Accept(_) =>
      var product := NewProduct(s.nextId, body);
      Outcome(Store(s.nextId + 1, s.records + [product]), Response(Created, Item(product)))
  }

  /** GET /all */
  function List(s: Store): Outcome
  {
    Outcome(s, Response(OK, Items(s.records)))
  }

  /** GET /:productId */
  function Read(s: Store, id: Option<int>): Outcome
  {
    match Find(s.records, HasId(IdKey, id))
    case None => Outcome(s, Response(NotFound, Message(ProductNotFound)))
    case Some(product) => Outcome(s, Response(OK, Item(product)))
  }

  /** PUT /:productId: a missing id answers 500, not 404. */
  function Update(s: Store, headers: map<string, string>, verify: Verifier, id: Option<int>, body: Record): Outcome
  {
    match Authorize(headers, AdminRole, verify)
    case Reject(r) => Outcome(s, Rejection(r))
    case Accept(_) =>
      if Find(s.records, HasId(IdKey, id)).None? then
        Outcome(s, Response(ServerError, Message(UpdateError)))
      else
        Outcome(Store(s.nextId, UpdateFirst(s.records, HasId(IdKey, id), body)),
                Response(OK, Message(ProductUpdated)))
  }

  /** DELETE /:productId */
  function Remove(s: Store, headers: map<string, string>, verify: Verifier, id: Option<int>): Outcome
  {
    match Authorize(headers, AdminRole, verify)
    case Reject(r) => Outcome(s, Rejection(r))
    case Accept(_) =>
      if Find(s.records, HasId(IdKey, id)).None? then
        Outcome(s, Response(NotFound, Message(ProductNotFound)))
      else
        Outcome(Store(s.nextId, RemoveFirst(s.records, HasId(IdKey, id))),
                Response(OK, Message(ProductDeleted)))
  }

  // ---------------------------------------------------------------------
  // Properties of the routes.

  /** A successful POST numbers the product with the counter, bumps the
      counter by one and appends exactly `{ productId, prodName, prodPrice }`. */
  lemma CreateAppends(s: Store, headers: map<string, string>, verify: Verifier, body: Record, user: Claims)
    requires Authorize(headers, AdminRole, verify) == Accept(user)
    ensures var o := Create(s, headers, verify, body);
            && o.store.nextId == s.nextId + 1
            && o.store.records[..|s.records|] == s.records
            && |o.store.records| == |s.records| + 1
            && o.store.records[|s.records|].Keys == {"productId", "prodName", "prodPrice"}
            && Get(o.store.records[|s.records|], "productId") == Num(s.nextId)
            && Get(o.store.records[|s.records|], "prodName") == Get(body, "prodName")
            && Get(o.store.records[|s.records|], "prodPrice") == Get(body, "prodPrice")
            && o.response == Response(Created, Item(o.store.records[|s.records|]))
  {
    assert Create(s, headers, verify, body).store.records == s.records + [NewProduct(s.nextId, body)];
  }

  /** The reading routes need no token and never change the store; GET by
      id answers the first match or 404. */
  lemma ReadsAreOpen(s: Store, id: Option<int>)
    ensures List(s) == Outcome(s, Response(OK, Items(s.records)))
    ensures Read(s, id).store == s
    ensures FindIndex(s.records, HasId(IdKey, id)).None? ==>
              Read(s, id).response == Response(NotFound, Message(ProductNotFound))
    ensures FindIndex(s.records, HasId(IdKey, id)).Some? ==>
              Read(s, id).response == Response(OK, Item(s.records[FindIndex(s.records, HasId(IdKey, id)).value]))
  {
  }

  /** For an admin, PUT on a missing id answers 500 and DELETE answers 404,
      both without change; on a found id PUT spreads the body over that
      record only and DELETE removes exactly that record. */
  lemma WritesTouchOnlyMatch(s: Store, headers: map<string, string>, verify: Verifier,
                             id: Option<int>, body: Record, user: Claims)
    requires Authorize(headers, AdminRole, verify) == Accept(user)
    ensures FindIndex(s.records, HasId(IdKey, id)).None? ==>
              && Update(s, headers, verify, id, body) == Outcome(s, Response(ServerError, Message(UpdateError)))
              && Remove(s, headers, verify, id) == Outcome(s, Response(NotFound, Message(ProductNotFound)))
    ensures FindIndex(s.records, HasId(IdKey, id)).Some? ==>
              var i := FindIndex(s.records, HasId(IdKey, id)).value;
              && Update(s, headers, verify, id, body)
                 == Outcome(Store(s.nextId, s.records[i := Merge(s.records[i], body)]),
                            Response(OK, Message(ProductUpdated)))
              && Remove(s, headers, verify, id)
                 == Outcome(Store(s.nextId, RemoveAt(s.records, i)), Response(OK, Message(ProductDeleted)))
  {
    var q := HasId(IdKey, id);
    if FindIndex(s.records, q).Some? {
      var i := FindIndex(s.records, q).value;
      AssignUpdatesFirst(s.records, q, body, i);
      SpliceRemovesFirst(s.records, q, i);
    }
  }

  /** Only an admin token reaches the writing routes; any other verified
      caller gets the role rejection and nothing changes. */
  lemma WritesNeedAdmin(s: Store, headers: map<string, string>, verify: Verifier,
                        id: Option<int>, body: Record, user: Claims)
    requires Authenticate(headers, verify) == Accept(user)
    requires user.role != Str("admin")
    ensures Create(s, headers, verify, body) == Outcome(s, Rejection(InsufficientRole))
    ensures Update(s, headers, verify, id, body) == Outcome(s, Rejection(InsufficientRole))
    ensures Remove(s, headers, verify, id) == Outcome(s, Rejection(InsufficientRole))
  {
  }

  // ---------------------------------------------------------------------
  // The service's module-level state and its handlers.

  class Products {
    var nextId: nat              // `productId`
    var products: seq<Record>    // `products`

    constructor ()
      ensures nextId == 1 && products == []
    {
      nextId := 1;
      products := [];
    }

    function State(): Store
      reads this
    {
      Store(nextId, products)
    }

    method Post(headers: map<string, string>, verify: Verifier, body: Record) returns (resp: Response)
      modifies this
      ensures Outcome(State(), resp) == Create(old(State()), headers, verify, body)
    {
      var decision := Authorize(headers, AdminRole, verify);
      if decision.Reject? {
        return Rejection(decision.reason);
      }
      var data := NewProduct(nextId, body);
      nextId := nextId + 1;
      products := products + [data];
      resp := Response(Created, Item(data));
    }

    method GetAll() returns (resp: Response)
      ensures resp == List(State()).response
    {
      resp := Response(OK, Items(products));
    }

    method GetById(id: Option<int>) returns (resp: Response)
      ensures resp == Read(State(), id).response
    {
      var item := Find(products, HasId(IdKey, id));
      if item.Some? {
        resp := Response(OK, Item(item.value));
      } else {
        resp := Response(NotFound, Message(ProductNotFound));
      }
    }

    method Put(headers: map<string, string>, verify: Verifier, id: Option<int>, body: Record)
      returns (resp: Response)
      modifies this
      ensures Outcome(State(), resp) == Update(old(State()), headers, verify, id, body)
    {
      var decision := Authorize(headers, AdminRole, verify);
      if decision.Reject? {
        return Rejection(decision.reason);
      }
      var index := FindIndex(products, HasId(IdKey, id));
      if index.Some? {
        AssignUpdatesFirst(products, HasId(IdKey, id), body, index.value);
        products := products[index.value := Merge(products[index.value], body)];
        resp := Response(OK, Message(ProductUpdated));
      } else {
        resp := Response(ServerError, Message(UpdateError));
      }
    }

    method Delete(headers: map<string, string>, verify: Verifier, id: Option<int>)
      returns (resp: Response)
      modifies this
      ensures Outcome(State(), resp) == Remove(old(State()), headers, verify, id)
    {
      var decision := Authorize(headers, AdminRole, verify);
      if decision.Reject? {
        return Rejection(decision.reason);
      }
      var index := FindIndex(products, HasId(IdKey, id));
      if index.Some? {
        SpliceRemovesFirst(products, HasId(IdKey, id), index.value);
        products := RemoveAt(products, index.value);
        resp := Response(OK, Message(ProductDeleted));
      } else {
        resp := Response(NotFound, Message(ProductNotFound));
      }
    }
  }
}
