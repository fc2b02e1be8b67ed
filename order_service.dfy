/** order-service.js: an auto-increment counter `orderId` and an array
    `orders`, behind five routes. Every route first runs
    `authorization(["customer"])`, except the listing, which runs
    `authorization(["admin"])`; the by-id routes then require the caller to
    own the order. */
module OrderService {
  import opened Values
  import opened Http
  import opened Records
  import opened Authorization

  const IdKey: string := "orderId"
  const OwnerKey: string := "userId"
  const CustomerRole: seq<string> := ["customer"]
  const AdminRole: seq<string> := ["admin"]

  const AccessDenied: string := "Unauthorized Access"
  const OrderNotFound: string := "Order not found"
  const OrderUpdated: string := "Order successfully updated"
  const OrderDeleted: string := "Order successfully deleted"

  /** The outcome of the `axios.get` to the product service: it resolves on
      a 2xx answer and rejects with an error message otherwise. */
  datatype Lookup = Found | Failed(message: string)

  /** The record POST / stores. */
  function NewOrder(orderId: nat, owner: Value, body: Record): Record
  {
    map[IdKey := Num(orderId), OwnerKey := owner,
        "productId" := Get(body, "productId"), "quantity" := Get(body, "quantity")]
  }

  /** `order.userId === req.user.id` */
  predicate Owns(user: Claims, order: Record)
  {
    Get(order, OwnerKey) == user.id
  }

  // ---------------------------------------------------------------------
  // The routes, as functions from the store before to the outcome.

  /** POST / */
  function Create(s: Store, headers: map<string, string>, verify: Verifier,
                  body: Record, lookup: Lookup): Outcome
  {
    match Authorize(headers, CustomerRole, verify)
    case Reject(r) => Outcome(s, Rejection(r))
    case Accept(user) =>
      match lookup
      case Failed(msg) => Outcome(s, Response(ServerError, Message(msg)))
      case Found =>
        var order := NewOrder(s.nextId, user.id, body);
        Outcome(Store(s.nextId + 1, s.records + [order]), Response(OK, Item(order)))
  }

  /** GET /all */
  function List(s: Store, headers: map<string, string>, verify: Verifier): Outcome
  {
    match Authorize(headers, AdminRole, verify)
    case Reject(r) => Outcome(s, Rejection(r))
    case Accept(_) => Outcome(s, Response(OK, Items(s.records)))
  }

  /** GET /:orderId */
  function Read(s: Store, headers: map<string, string>, verify: Verifier, id: Option<int>): Outcome
  {
    match Authorize(headers, CustomerRole, verify)
    case Reject(r) => Outcome(s, Rejection(r))
    case Accept(user) =>
      match Find(s.records, HasId(IdKey, id))
      case None => Outcome(s, Response(NotFound, Message(OrderNotFound)))
      case Some(order) =>
        if !Owns(user, order) then Outcome(s, Response(Forbidden, Message(AccessDenied)))
        else Outcome(s, Response(OK, Item(order)))
  }

  /** PUT /:orderId */
  function Update(s: Store, headers: map<string, string>, verify: Verifier,
                  id: Option<int>, body: Record, lookup: Lookup): Outcome
  {
    match Authorize(headers, CustomerRole, verify)
    case Reject(r) => Outcome(s, Rejection(r))
    case Accept(user) =>
      match Find(s.records, HasId(IdKey, id))
      case None => Outcome(s, Response(NotFound, Message(OrderNotFound)))
      case Some(order) =>
        if !Owns(user, order) then Outcome(s, Response(Forbidden, Message(AccessDenied)))
        else
          match lookup
          case Failed(msg) => Outcome(s, Response(ServerError, Message(msg)))
          case Found =>
            Outcome(Store(s.nextId, UpdateFirst(s.records, HasId(IdKey, id), body)),
                    Response(OK, Message(OrderUpdated)))
  }

  /** DELETE /:orderId */
  function Remove(s: Store, headers: map<string, string>, verify: Verifier, id: Option<int>): Outcome
  {
    match Authorize(headers, CustomerRole, verify)
    case Reject(r) => Outcome(s, Rejection(r))
    case Accept(user) =>
      match Find(s.records, HasId(IdKey, id))
      case None => Outcome(s, Response(NotFound, Message(OrderNotFound)))
      case Some(order) =>
        if !Owns(user, order) then Outcome(s, Response(Forbidden, Message(AccessDenied)))
        else
          Outcome(Store(s.nextId, RemoveFirst(s.records, HasId(IdKey, id))),
                  Response(OK, Message(OrderDeleted)))
  }

  // ---------------------------------------------------------------------
  // Properties of the routes.

  /** A successful POST numbers the new order with the counter, bumps the
      counter by one, appends exactly one order owned by the caller and
      leaves the existing orders alone. */
  lemma CreateAppends(s: Store, headers: map<string, string>, verify: Verifier, body: Record, user: Claims)
    requires Authorize(headers, CustomerRole, verify) == Accept(user)
    ensures var o := Create(s, headers, verify, body, Found);
            && o.store.nextId == s.nextId + 1
            && |o.store.records| == |s.records| + 1
            && o.store.records[..|s.records|] == s.records
            && o.store.records[|s.records|].Keys == {IdKey, OwnerKey, "productId", "quantity"}
            && Get(o.store.records[|s.records|], IdKey) == Num(s.nextId)
            && Get(o.store.records[|s.records|], OwnerKey) == user.id
            && Get(o.store.records[|s.records|], "productId") == Get(body, "productId")
            && Get(o.store.records[|s.records|], "quantity") == Get(body, "quantity")
            && o.response == Response(OK, Item(o.store.records[|s.records|]))
  {
    var o := Create(s, headers, verify, body, Found);
    assert o.store.records == s.records + [NewOrder(s.nextId, user.id, body)];
  }

  /** A POST that is rejected, or whose product lookup fails, changes
      neither the orders nor the counter; the failed lookup answers 500. */
  lemma CreateFailureChangesNothing(s: Store, headers: map<string, string>, verify: Verifier,
                                    body: Record, lookup: Lookup)
    requires Authorize(headers, CustomerRole, verify).Reject? || lookup.Failed?
    ensures Create(s, headers, verify, body, lookup).store == s
    ensures Authorize(headers, CustomerRole, verify).Accept? ==>
              Create(s, headers, verify, body, lookup).response.status == ServerError
  {
  }

  /** GET /:orderId never changes the store: 404 without a match, 403 when
      the first match belongs to someone else, and otherwise that first
      match. */
  lemma ReadOutcomes(s: Store, headers: map<string, string>, verify: Verifier, id: Option<int>, user: Claims)
    requires Authorize(headers, CustomerRole, verify) == Accept(user)
    ensures Read(s, headers, verify, id).store == s
    ensures FindIndex(s.records, HasId(IdKey, id)).None? ==>
              Read(s, headers, verify, id).response == Response(NotFound, Message(OrderNotFound))
    ensures FindIndex(s.records, HasId(IdKey, id)).Some? ==>
              var order := s.records[FindIndex(s.records, HasId(IdKey, id)).value];
              && Get(order, IdKey) == Num(id.value)
              && Read(s, headers, verify, id).response
                 == if Owns(user, order) then Response(OK, Item(order))
                    else Response(Forbidden, Message(AccessDenied))
  {
  }

  /** PUT /:orderId changes nothing when there is no match (404), when the
      caller does not own the match (403, whatever the product lookup would
      give, because it is never made), or when the lookup for an owned match
      fails (500 with the lookup's message); 500 comes from nowhere else. */
  lemma UpdateGuards(s: Store, headers: map<string, string>, verify: Verifier, id: Option<int>,
                     body: Record, lookup: Lookup, user: Claims)
    requires Authorize(headers, CustomerRole, verify) == Accept(user)
    ensures FindIndex(s.records, HasId(IdKey, id)).None? ==>
              Update(s, headers, verify, id, body, lookup) == Outcome(s, Response(NotFound, Message(OrderNotFound)))
    ensures FindIndex(s.records, HasId(IdKey, id)).Some? &&
            !Owns(user, s.records[FindIndex(s.records, HasId(IdKey, id)).value]) ==>
              Update(s, headers, verify, id, body, lookup) == Outcome(s, Response(Forbidden, Message(AccessDenied)))
    ensures FindIndex(s.records, HasId(IdKey, id)).Some? &&
            Owns(user, s.records[FindIndex(s.records, HasId(IdKey, id)).value]) && lookup.Failed? ==>
              Update(s, headers, verify, id, body, lookup) == Outcome(s, Response(ServerError, Message(lookup.message)))
    ensures Update(s, headers, verify, id, body, lookup).response.status == ServerError ==> lookup.Failed?
    ensures lookup.Failed? ==> Update(s, headers, verify, id, body, lookup).store == s
  {
  }

  /** A successful PUT replaces only the first match, by its fields with the
      body's fields spread over them; the body may even rewrite `orderId`
      and `userId`. */
  lemma UpdateMergesOnlyMatch(s: Store, headers: map<string, string>, verify: Verifier, id: Option<int>,
                              body: Record, user: Claims, i: nat)
    requires Authorize(headers, CustomerRole, verify) == Accept(user)
    requires FindIndex(s.records, HasId(IdKey, id)) == Some(i)
    requires Owns(user, s.records[i])
    ensures var o := Update(s, headers, verify, id, body, Found);
            && o.response == Response(OK, Message(OrderUpdated))
            && o.store.nextId == s.nextId
            && |o.store.records| == |s.records|
            && o.store.records[i] == Merge(s.records[i], body)
            && (forall j :: 0 <= j < |s.records| && j != i ==> o.store.records[j] == s.records[j])
            && (OwnerKey in body ==> Get(o.store.records[i], OwnerKey) == body[OwnerKey])
            && (IdKey in body ==> Get(o.store.records[i], IdKey) == body[IdKey])
  {
    UpdateFirstEffect(s.records, HasId(IdKey, id), body, i);
  }

  /** A successful DELETE removes exactly the first match and keeps the
      rest in order; without a match, or for another caller's order, it
      changes nothing. */
  lemma RemoveDeletesOnlyMatch(s: Store, headers: map<string, string>, verify: Verifier, id: Option<int>, user: Claims)
    requires Authorize(headers, CustomerRole, verify) == Accept(user)
    ensures FindIndex(s.records, HasId(IdKey, id)).None? ==>
              Remove(s, headers, verify, id) == Outcome(s, Response(NotFound, Message(OrderNotFound)))
    ensures FindIndex(s.records, HasId(IdKey, id)).Some? ==>
              var i := FindIndex(s.records, HasId(IdKey, id)).value;
              Remove(s, headers, verify, id)
              == if Owns(user, s.records[i])
                 then Outcome(Store(s.nextId, RemoveAt(s.records, i)), Response(OK, Message(OrderDeleted)))
                 else Outcome(s, Response(Forbidden, Message(AccessDenied)))
  {
    var q := HasId(IdKey, id);
    if FindIndex(s.records, q).Some? {
      SpliceRemovesFirst(s.records, q, FindIndex(s.records, q).value);
    }
  }

  /** Only an admin token lists the orders; only a customer token reaches
      the other four routes. Anyone else verified gets the role rejection
      and nothing changes. */
  lemma RouteRoles(s: Store, headers: map<string, string>, verify: Verifier, id: Option<int>,
                   body: Record, lookup: Lookup, user: Claims)
    requires Authenticate(headers, verify) == Accept(user)
    ensures user.role != Str("admin") ==>
              List(s, headers, verify) == Outcome(s, Rejection(InsufficientRole))
    ensures user.role != Str("customer") ==>
              && Create(s, headers, verify, body, lookup) == Outcome(s, Rejection(InsufficientRole))
              && Read(s, headers, verify, id) == Outcome(s, Rejection(InsufficientRole))
              && Update(s, headers, verify, id, body, lookup) == Outcome(s, Rejection(InsufficientRole))
              && Remove(s, headers, verify, id) == Outcome(s, Rejection(InsufficientRole))
  {
  }

  /** GET /all answers the whole array, unchanged, to an admin. */
  lemma ListReturnsAll(s: Store, headers: map<string, string>, verify: Verifier, user: Claims)
    requires Authorize(headers, AdminRole, verify) == Accept(user)
    ensures List(s, headers, verify) == Outcome(s, Response(OK, Items(s.records)))
  {
  }

  // ---------------------------------------------------------------------
  // The service's module-level state and its handlers.

  class Orders {
    var nextId: nat            // `orderId`
    var orders: seq<Record>    // `orders`

    constructor ()
      ensures nextId == 1 && orders == []
    {
      nextId := 1;
      orders := [];
    }

    function State(): Store
      reads this
    {
      Store(nextId, orders)
    }

    method Post(headers: map<string, string>, verify: Verifier, body: Record, lookup: Lookup)
      returns (resp: Response)
      modifies this
      ensures Outcome(State(), resp) == Create(old(State()), headers, verify, body, lookup)
    {
      var decision := Authorize(headers, CustomerRole, verify);
      if decision.Reject? {
        return Rejection(decision.reason);
      }
      if lookup.Failed? {
        return Response(ServerError, Message(lookup.message));
      }
      var data := NewOrder(nextId, decision.user.id, body);
      nextId := nextId + 1;
      orders := orders + [data];
      resp := Response(OK, Item(data));
    }

    method GetAll(headers: map<string, string>, verify: Verifier) returns (resp: Response)
      ensures resp == List(State(), headers, verify).response
    {
      var decision := Authorize(headers, AdminRole, verify);
      if decision.Reject? {
        return Rejection(decision.reason);
      }
      resp := Response(OK, Items(orders));
    }

    method GetById(headers: map<string, string>, verify: Verifier, id: Option<int>) returns (resp: Response)
      ensures resp == Read(State(), headers, verify, id).response
    {
      var decision := Authorize(headers, CustomerRole, verify);
      if decision.Reject? {
        return Rejection(decision.reason);
      }
      var data := Find(orders, HasId(IdKey, id));
      if data.None? {
        return Response(NotFound, Message(OrderNotFound));
      }
      if !Owns(decision.user, data.value) {
        return Response(Forbidden, Message(AccessDenied));
      }
      resp := Response(OK, Item(data.value));
    }

    method Put(headers: map<string, string>, verify: Verifier, id: Option<int>, body: Record, lookup: Lookup)
      returns (resp: Response)
      modifies this
      ensures Outcome(State(), resp) == Update(old(State()), headers, verify, id, body, lookup)
    {
      var decision := Authorize(headers, CustomerRole, verify);
      if decision.Reject? {
        return Rejection(decision.reason);
      }
      var index := FindIndex(orders, HasId(IdKey, id));
      if index.None? {
        return Response(NotFound, Message(OrderNotFound));
      }
      var order := orders[index.value];
      if !Owns(decision.user, order) {
        return Response(Forbidden, Message(AccessDenied));
      }
      if lookup.Failed? {
        return Response(ServerError, Message(lookup.message));
      }
      AssignUpdatesFirst(orders, HasId(IdKey, id), body, index.value);
      orders := orders[index.value := Merge(orders[index.value], body)];
      resp := Response(OK, Message(OrderUpdated));
    }

    method Delete(headers: map<string, string>, verify: Verifier, id: Option<int>)
      returns (resp: Response)
      modifies this
      ensures Outcome(State(), resp) == Remove(old(State()), headers, verify, id)
    {
      var decision := Authorize(headers, CustomerRole, verify);
      if decision.Reject? {
        return Rejection(decision.reason);
      }
      var index := FindIndex(orders, HasId(IdKey, id));
      if index.None? {
        return Response(NotFound, Message(OrderNotFound));
      }
      var order := orders[index.value];
      if !Owns(decision.user, order) {
        return Response(Forbidden, Message(AccessDenied));
      }
      SpliceRemovesFirst(orders, HasId(IdKey, id), index.value);
      orders := RemoveAt(orders, index.value);
      resp := Response(OK, Message(OrderDeleted));
    }
  }
}
