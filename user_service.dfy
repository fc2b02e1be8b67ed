/** user-service.js: an auto-increment counter `id` and an array `users`.
    Login and sign-up need no token; the by-id routes run
    `authenticateToken()` and then allow the call only when the path id is
    the caller's own id or the caller is an admin. */
module UserService {
  import opened Values
  import opened Http
  import opened Records
  import Authorization

  const IdKey: string := "id"

  /** This service's signing secret: the same text as the middleware's. */
  const SecretKey: string := "Microservice"

  /** `expiresIn: "1h"`, in seconds. */
  const ExpiresIn: nat := 3600

  const WrongCredentials: string := "Wrong username or password"
  const AccessDenied: string := "Unauthorized Access"
  const UserNotFound: string := "User not found"
  const UserUpdated: string := "User successfully updated"
  const UserDeleted: string := "User successfully deleted"

  /** `jwt.sign(payload, secret, { expiresIn })`, with the expiry in
      seconds; the signature itself is not modelled. */
  type Signer = (Authorization.Claims, string, nat) -> string

  /** The payload `generateToken` signs: `{ id, role }` of the user. */
  function TokenPayload(user: Record): Authorization.Claims
  {
    Authorization.Claims(Get(user, IdKey), Get(user, "role"))
  }

  /** `generateToken(user)` */
  function GenerateToken(user: Record, sign: Signer): string
  {
    sign(TokenPayload(user), SecretKey, ExpiresIn)
  }

  /** The record POST / stores. */
  function NewUser(id: nat, body: Record): Record
  {
    map[IdKey := Num(id), "username" := Get(body, "username"),
        "password" := Get(body, "password"), "role" := Get(body, "role")]
  }

  /** `userId === req.user.id || req.user.role === "admin"` */
  predicate SelfOrAdmin(id: Option<int>, user: Authorization.Claims)
  {
    (id.Some? && user.id == Num(id.value)) || user.role == Str("admin")
  }

  /** The `find` callback of the login route. */
  function LoginQuery(body: Record): Query
  {
    HasCredentials(Get(body, "username"), Get(body, "password"))
  }

  // ---------------------------------------------------------------------
  // The routes, as functions from the store before to the outcome.

  /** POST /login */
  function Login(s: Store, body: Record, sign: Signer): Outcome
  {
    match Find(s.records, LoginQuery(body))
    case None => Outcome(s, Response(Unauthorized, Message(WrongCredentials)))
    case Some(user) => Outcome(s, Response(OK, Token(GenerateToken(user, sign))))
  }

  /** POST / */
  function Create(s: Store, body: Record): Outcome
  {
    var user := NewUser(s.nextId, body);
    Outcome(Store(s.nextId + 1, s.records + [user]), Response(Created, Item(user)))
  }

  /** GET /:id */
  function Read(s: Store, headers: map<string, string>, verify: Authorization.Verifier, id: Option<int>): Outcome
  {
    match Authorization.Authenticate(headers, verify)
    case Reject(r) => Outcome(s, Authorization.Rejection(r))
    case Accept(caller) =>
      if !SelfOrAdmin(id, caller) then Outcome(s, Response(Forbidden, Message(AccessDenied)))
      else
        match Find(s.records, HasId(IdKey, id))
        case None => Outcome(s, Response(NotFound, Message(UserNotFound)))
        case Some(user) => Outcome(s, Response(OK, Item(user)))
  }

  /** PUT /:id */
  function Update(s: Store, headers: map<string, string>, verify: Authorization.Verifier,
                  id: Option<int>, body: Record): Outcome
  {
    match Authorization.Authenticate(headers, verify)
    case Reject(r) => Outcome(s, Authorization.Rejection(r))
    case Accept(caller) =>
      if !SelfOrAdmin(id, caller) then Outcome(s, Response(Forbidden, Message(AccessDenied)))
      else if Find(s.records, HasId(IdKey, id)).None? then
        Outcome(s, Response(NotFound, Message(UserNotFound)))
      else
        Outcome(Store(s.nextId, UpdateFirst(s.records, HasId(IdKey, id), body)),
                Response(OK, Message(UserUpdated)))
  }

  /** DELETE /:id */
  function Remove(s: Store, headers: map<string, string>, verify: Authorization.Verifier, id: Option<int>): Outcome
  {
    match Authorization.Authenticate(headers, verify)
    case Reject(r) => Outcome(s, Authorization.Rejection(r))
    case Accept(caller) =>
      if !SelfOrAdmin(id, caller) then Outcome(s, Response(Forbidden, Message(AccessDenied)))
      else if Find(s.records, HasId(IdKey, id)).None? then
        Outcome(s, Response(NotFound, Message(UserNotFound)))
      else
        Outcome(Store(s.nextId, RemoveFirst(s.records, HasId(IdKey, id))),
                Response(OK, Message(UserDeleted)))
  }

  // ---------------------------------------------------------------------
  // Properties of the routes.

  /** Login answers a token for the FIRST user whose username and password
      both equal the body's; the token is `{ id, role }` of that user signed
      with the shared secret for one hour. Without such a user it answers
      401 and issues nothing. The store is never changed. */
  lemma LoginIssuesTokenForFirstMatch(s: Store, body: Record, sign: Signer)
    ensures Login(s, body, sign).store == s
    ensures FindIndex(s.records, LoginQuery(body)).None? ==>
              Login(s, body, sign).response == Response(Unauthorized, Message(WrongCredentials))
    ensures FindIndex(s.records, LoginQuery(body)).Some? ==>
              var user := s.records[FindIndex(s.records, LoginQuery(body)).value];
              && Get(user, "username") == Get(body, "username")
              && Get(user, "password") == Get(body, "password")
              && Login(s, body, sign).response
                 == Response(OK, Token(sign(Authorization.Claims(Get(user, "id"), Get(user, "role")),
                                            "Microservice", 3600)))
  {
  }

  /** Sign-up needs no token: it numbers the user with the counter, bumps
      the counter by one and appends exactly `{ id, username, password,
      role }` from the body. */
  lemma CreateAppends(s: Store, body: Record)
    ensures var o := Create(s, body);
            && o.store.nextId == s.nextId + 1
            && o.store.records[..|s.records|] == s.records
            && |o.store.records| == |s.records| + 1
            && o.store.records[|s.records|].Keys == {"id", "username", "password", "role"}
            && Get(o.store.records[|s.records|], "id") == Num(s.nextId)
            && Get(o.store.records[|s.records|], "username") == Get(body, "username")
            && Get(o.store.records[|s.records|], "password") == Get(body, "password")
            && Get(o.store.records[|s.records|], "role") == Get(body, "role")
            && o.response == Response(Created, Item(o.store.records[|s.records|]))
  {
    assert Create(s, body).store.records == s.records + [NewUser(s.nextId, body)];
  }

  /** The by-id routes are allowed exactly for the caller's own id or for an
      admin. Otherwise they answer 403 before any lookup, so even an id no
      user has gives 403, and nothing changes. */
  lemma AccessRule(s: Store, headers: map<string, string>, verify: Authorization.Verifier,
                   id: Option<int>, body: Record, caller: Authorization.Claims)
    requires Authorization.Authenticate(headers, verify) == Authorization.Accept(caller)
    ensures !SelfOrAdmin(id, caller) ==>
              && Read(s, headers, verify, id) == Outcome(s, Response(Forbidden, Message(AccessDenied)))
              && Update(s, headers, verify, id, body) == Outcome(s, Response(Forbidden, Message(AccessDenied)))
              && Remove(s, headers, verify, id) == Outcome(s, Response(Forbidden, Message(AccessDenied)))
    ensures SelfOrAdmin(id, caller) ==>
              && Read(s, headers, verify, id).response.status != Forbidden
              && Update(s, headers, verify, id, body).response.status != Forbidden
              && Remove(s, headers, verify, id).response.status != Forbidden
  {
  }

  /** An allowed by-id call that matches no user answers 404 and changes
      nothing; GET with a match answers the first match. */
  lemma NotFoundChangesNothing(s: Store, headers: map<string, string>, verify: Authorization.Verifier,
                               id: Option<int>, body: Record, caller: Authorization.Claims)
    requires Authorization.Authenticate(headers, verify) == Authorization.Accept(caller)
    requires SelfOrAdmin(id, caller)
    ensures Read(s, headers, verify, id).store == s
    ensures FindIndex(s.records, HasId(IdKey, id)).None? ==>
              && Read(s, headers, verify, id) == Outcome(s, Response(NotFound, Message(UserNotFound)))
              && Update(s, headers, verify, id, body) == Outcome(s, Response(NotFound, Message(UserNotFound)))
              && Remove(s, headers, verify, id) == Outcome(s, Response(NotFound, Message(UserNotFound)))
    ensures FindIndex(s.records, HasId(IdKey, id)).Some? ==>
              Read(s, headers, verify, id).response
              == Response(OK, Item(s.records[FindIndex(s.records, HasId(IdKey, id)).value]))
  {
  }

  /** A successful PUT spreads the body over the first match only; a
      successful DELETE removes exactly that record. Every other record
      keeps its place and contents. */
  lemma UpdateAndRemoveTouchOnlyMatch(s: Store, headers: map<string, string>, verify: Authorization.Verifier,
                                      id: Option<int>, body: Record, caller: Authorization.Claims, i: nat)
    requires Authorization.Authenticate(headers, verify) == Authorization.Accept(caller)
    requires SelfOrAdmin(id, caller)
    requires FindIndex(s.records, HasId(IdKey, id)) == Some(i)
    ensures var o := Update(s, headers, verify, id, body);
            && o.response == Response(OK, Message(UserUpdated))
            && o.store.nextId == s.nextId
            && |o.store.records| == |s.records|
            && o.store.records[i] == Merge(s.records[i], body)
            && (forall j :: 0 <= j < |s.records| && j != i ==> o.store.records[j] == s.records[j])
    ensures Remove(s, headers, verify, id)
            == Outcome(Store(s.nextId, RemoveAt(s.records, i)), Response(OK, Message(UserDeleted)))
  {
    UpdateFirstEffect(s.records, HasId(IdKey, id), body, i);
    SpliceRemovesFirst(s.records, HasId(IdKey, id), i);
  }

  /** A signer and a verifier that agree: a token signed with this service's
      secret verifies, within its hour, to exactly the signed payload. */
  ghost predicate Agree(sign: Signer, verify: Authorization.Verifier)
  {
    forall c :: verify(sign(c, SecretKey, ExpiresIn), SecretKey) == Some(c)
  }

  /** Because both sides use the same secret, the token from a successful
      login, sent as "Bearer <token>", passes `authenticateToken()` with the
      stored user's id and role, and GET of that id answers 200 with the
      first record carrying the id. That is the logged-in user unless a PUT
      has given another, earlier user the same id. */
  lemma LoginTokenOpensOwnRecord(s: Store, body: Record, sign: Signer, verify: Authorization.Verifier, n: int)
    requires Agree(sign, verify)
    requires Find(s.records, LoginQuery(body)).Some?
    requires var token := GenerateToken(Find(s.records, LoginQuery(body)).value, sign);
             ' ' !in token && token != ""
    requires Get(Find(s.records, LoginQuery(body)).value, IdKey) == Num(n)
    ensures var user := Find(s.records, LoginQuery(body)).value;
            var headers := map[Authorization.HeaderName := "Bearer " + GenerateToken(user, sign)];
            && Login(s, body, sign).response == Response(OK, Token(GenerateToken(user, sign)))
            && Authorization.Authenticate(headers, verify) == Authorization.Accept(TokenPayload(user))
            && FindIndex(s.records, HasId(IdKey, Some(n))).Some?
            && Read(s, headers, verify, Some(n)).response
               == Response(OK, Item(s.records[FindIndex(s.records, HasId(IdKey, Some(n))).value]))
  {
    var user := Find(s.records, LoginQuery(body)).value;
    var token := GenerateToken(user, sign);
    Authorization.CredentialIsSecondWord("Bearer", token, "");
    assert "Bearer" + " " + token + "" == "Bearer " + token;
    assert verify(token, Authorization.SecretKey) == Some(TokenPayload(user));
    var i := FindIndex(s.records, LoginQuery(body)).value;
    FindSucceeds(s.records, HasId(IdKey, Some(n)), i);
  }

  // ---------------------------------------------------------------------
  // The service's module-level state and its handlers.

  class Users {
    var nextId: nat            // `id`
    var users: seq<Record>     // `users`

    constructor ()
      ensures nextId == 1 && users == []
    {
      nextId := 1;
      users := [];
    }

    function State(): Store
      reads this
    {
      Store(nextId, users)
    }

    method PostLogin(body: Record, sign: Signer) returns (resp: Response)
      ensures resp == Login(State(), body, sign).response
    {
      var user := Find(users, HasCredentials(Get(body, "username"), Get(body, "password")));
      if user.Some? {
        var token := GenerateToken(user.value, sign);
        resp := Response(OK, Token(token));
      } else {
        resp := Response(Unauthorized, Message(WrongCredentials));
      }
    }

    method Post(body: Record) returns (resp: Response)
      modifies this
      ensures Outcome(State(), resp) == Create(old(State()), body)
    {
      var data := NewUser(nextId, body);
      nextId := nextId + 1;
      users := users + [data];
      resp := Response(Created, Item(data));
    }

    method GetById(headers: map<string, string>, verify: Authorization.Verifier, id: Option<int>)
      returns (resp: Response)
      ensures resp == Read(State(), headers, verify, id).response
    {
      var decision := Authorization.Authenticate(headers, verify);
      if decision.Reject? {
        return Authorization.Rejection(decision.reason);
      }
      if SelfOrAdmin(id, decision.user) {
        var data := Find(users, HasId(IdKey, id));
        if data.None? {
          return Response(NotFound, Message(UserNotFound));
        }
        resp := Response(OK, Item(data.value));
      } else {
        resp := Response(Forbidden, Message(AccessDenied));
      }
    }

    method Put(headers: map<string, string>, verify: Authorization.Verifier, id: Option<int>, body: Record)
      returns (resp: Response)
      modifies this
      ensures Outcome(State(), resp) == Update(old(State()), headers, verify, id, body)
    {
      var decision := Authorization.Authenticate(headers, verify);
      if decision.Reject? {
        return Authorization.Rejection(decision.reason);
      }
      if SelfOrAdmin(id, decision.user) {
        var index := FindIndex(users, HasId(IdKey, id));
        if index.None? {
          return Response(NotFound, Message(UserNotFound));
        }
        AssignUpdatesFirst(users, HasId(IdKey, id), body, index.value);
        users := users[index.value := Merge(users[index.value], body)];
        resp := Response(OK, Message(UserUpdated));
      } else {
        resp := Response(Forbidden, Message(AccessDenied));
      }
    }

    method Delete(headers: map<string, string>, verify: Authorization.Verifier, id: Option<int>)
      returns (resp: Response)
      modifies this
      ensures Outcome(State(), resp) == Remove(old(State()), headers, verify, id)
    {
      var decision := Authorization.Authenticate(headers, verify);
      if decision.Reject? {
        return Authorization.Rejection(decision.reason);
      }
      if SelfOrAdmin(id, decision.user) {
        var index := FindIndex(users, HasId(IdKey, id));
        if index.None? {
          return Response(NotFound, Message(UserNotFound));
        }
        SpliceRemovesFirst(users, HasId(IdKey, id), index.value);
        users := RemoveAt(users, index.value);
        resp := Response(OK, Message(UserDeleted));
      } else {
        resp := Response(Forbidden, Message(AccessDenied));
      }
    }
  }
}
