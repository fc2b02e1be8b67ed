# Secure microservices: stores and authorization middleware in Dafny

This project models the logic behind the HTTPS gateway of a small shop
made of three Express services: products, users and orders. Each service
keeps a module-level auto-increment counter and an array of records. Its
route handlers append a freshly numbered record, find the first record
with an id, spread a request body over the record found, or `splice` the
record out. Every order route, the user by-id routes and the product
writes run behind a rule that chooses 403, 404 or success (500 for a
product PUT on a missing id or a failed product lookup): a role
allow-list, ownership of an order, or "self or admin" for users. The
product reads, login and sign-up need no token. The middleware
`authenticateToken()` / `authorization(allowedRoles)` takes the second
space-separated word of the `authorization` header as a JSON Web Token.
It verifies the token and, in `authorization(allowedRoles)` only, checks
the decoded role against the list; then it either answers 403 or sets
`req.user` and calls `next()`.

Modules, one file each:

- `Values` (values.dfy): JSON-like primitive values (`Undefined`, `Null`,
  `Bool`, `Num`, `Str`), records as `map<string, Value>`, property access
  `Get`, and object spread as the right-biased map union `Merge`.
- `Http` (http.dfy): the status codes used and the response bodies.
- `Records` (records.dfy): `findIndex`, `find` and `splice(i, 1)` on a
  record array. It also gives declarative first-match reference definitions
  (`RemoveFirst`, `UpdateFirst`) and lemmas proving that the index-based
  operations the handlers use compute exactly those.
- `Authorization` (authorization.dfy): `split(" ")` and its inverse
  `join(" ")`, token extraction, the two decision procedures as total
  functions returning `Reject(reason)` or `Accept(claims)`, and a class
  `Exchange` whose methods perform the middleware's effect on `req.user`,
  `next()` and the response.
- `OrderService`, `UserService`, `ProductService`: each route is a pure
  function from the store before the request to the store after it and the
  response. Each service also has a class with the source's two mutable
  variables (`nextId` and the record array) whose handler methods mirror the
  JavaScript step by step and are proved equal to the route functions.

The JWT library is a pair of function parameters. `jwt.verify` is a
`Verifier = (token, secret) -> Option<Claims>`, which folds in the clock.
`jwt.sign` is a `Signer = (claims, secret, seconds) -> token`. The order
service's `axios.get` to the product service is a `Lookup` parameter
(`Found` or `Failed(message)`). A path id is already parsed, as an
`Option<int>`, where `None` stands for NaN; NaN is strictly equal to
nothing, so it matches no record.

The gateway has no rate limiter of its own and no route table: it only
mounts three proxies, and rate limiting is a library call in each route.
There is no guard whose empty role list means "authenticate only";
authentication without a role check is the separate function
`authenticateToken()`. The stores are arrays searched for the first match,
and a PUT may rewrite the very id a record is found by.

## Model

| member | source | states |
|---|---|---|
| `Values.Get` | order-service.js:85 | defines property access `r.key`: the stored value, or `undefined` for a missing key |
| `Values.Merge` | order-service.js:126 | the spread `{...old, ...body}` has the keys of both; every body key takes the body's value and every other key keeps the old value |
| `Records.Satisfies` | order-service.js:107-109 | defines the `find`/`findIndex` callbacks: `record[key] === id` for a parsed id, where NaN matches nothing (also order-service.js:82, user-service.js:81, product-service.js:63), and both username and password strictly equal for login (user-service.js:45) |
| `Records.FindIndex` | order-service.js:107-109 | `findIndex` yields the first index whose record satisfies the test, or none exactly when no record does |
| `Records.Find` | order-service.js:82 | `find` yields the record at the index `findIndex` reports, and nothing when it reports none |
| `Records.RemoveAt` | order-service.js:156 | `splice(i, 1)` shortens the array by one, keeps the elements before i, shifts those after i down by one, and loses exactly one copy of the element at i |
| `Records.SpliceRemovesFirst` | order-service.js:146-156 | splicing at the index `findIndex` found removes exactly the first matching record |
| `Records.AssignUpdatesFirst` | order-service.js:107-126 | assigning the merge at the index `findIndex` found merges into exactly the first matching record |
| `Records.NoMatchNoChange` | order-service.js:111-130 | with no matching record, neither removing nor merging the first match changes the array |
| `Records.RemoveFirstEffect` | order-service.js:156 | removing the first match shortens by one, keeps earlier records, shifts later ones down and is a permutation minus that record |
| `Records.UpdateFirstEffect` | order-service.js:126 | merging into the first match keeps the length, replaces that record by the merge and leaves every other position unchanged |
| `Authorization.Header` | middleware/authorization.js:8 | defines `req.headers["authorization"]`: the header's value, or nothing when the request has none |
| `Authorization.Rejection` | middleware/authorization.js:10-47 | defines the three 403 answers: "Unauthorized", "Unauthorized: You do not have the required permissions", "Forbidden: You do not have permission to access this resource" |
| `Authorization.Split` | middleware/authorization.js:8 | `split(" ")` yields at least one word, no word contains a space, and joining the words with single spaces gives back the header |
| `Authorization.SplitJoin` | middleware/authorization.js:8 | splitting a single-space join of space-free words gives back exactly those words |
| `Authorization.Credential` | middleware/authorization.js:8-12 | an extracted token is never empty and never contains a space |
| `Authorization.CredentialIsSecondWord` | middleware/authorization.js:8 | a header `<scheme> <token>` or `<scheme> <token> <more>` yields that token, for any scheme |
| `Authorization.CredentialShape` | middleware/authorization.js:29 | conversely, a header that yields a token is a space-free scheme, one space, the token, then nothing or a space and more |
| `Authorization.SchemeNeverChecked` | middleware/authorization.js:8 | replacing the first word of the header by any other space-free word never changes the token |
| `Authorization.RoleAllowed` | middleware/authorization.js:42 | defines `allowedRoles.includes(user.role)`: the role is a string that occurs in the list |
| `Authorization.Authenticate` | middleware/authorization.js:6-23 | defines the decision of `authenticateToken()`: no token gives NoCredential, a token that fails verification gives InvalidCredential, otherwise accept with the decoded claims |
| `Authorization.Authorize` | middleware/authorization.js:27-51 | defines the decision of `authorization(allowedRoles)`: the same two checks, then InsufficientRole for a role not in the list, otherwise accept with the decoded claims |
| `Authorization.AuthenticateAccepts` | middleware/authorization.js:6-23 | `authenticateToken` accepts with claims c exactly when a token is present and verifies to c, whatever the role |
| `Authorization.AuthorizeAccepts` | middleware/authorization.js:27-51 | `authorization(roles)` accepts with claims c exactly when a token is present, verifies to c, and c's role is a string in the list |
| `Authorization.CheckOrder` | middleware/authorization.js:29-48 | a missing token is rejected as NoCredential before verification; a token that fails verification is InvalidCredential regardless of roles; InsufficientRole only follows a verified token with a disallowed role |
| `Authorization.AuthorizeRefinesAuthenticate` | middleware/authorization.js:6-51 | `authorization(roles)` decides exactly as `authenticateToken` followed by the role check |
| `Authorization.Exchange.AuthenticateToken` | middleware/authorization.js:6-23 | on acceptance `req.user` becomes the decoded claims and `next` is called exactly once with no response sent; on rejection `req.user` is untouched, `next` is not called and the 403 for the reason is sent |
| `Authorization.Exchange.Authorization` | middleware/authorization.js:27-51 | the same, for the decision with the role check |
| `OrderService.NewOrder` | order-service.js:49-54 | defines the stored order: `orderId` from the counter, `userId` of the caller, `productId` and `quantity` from the body |
| `OrderService.Owns` | order-service.js:85 | defines the owner test `order.userId === req.user.id` used by GET, PUT and DELETE (also lines 113 and 152) |
| `OrderService.Create` | order-service.js:33-62 | defines POST /: customer role, then the product lookup (500 on failure), then a new order numbered by the counter appended and answered |
| `OrderService.List` | order-service.js:65-71 | defines GET /all: admin role, then the whole array |
| `OrderService.Read` | order-service.js:74-96 | defines GET /:orderId: customer role, then 404 without a match, 403 for another owner, otherwise the first match |
| `OrderService.Update` | order-service.js:99-135 | defines PUT /:orderId: customer role, 404, 403 before any lookup, 500 on a failed lookup, otherwise the body spread over the first match |
| `OrderService.Remove` | order-service.js:138-165 | defines DELETE /:orderId: customer role, 404, 403, otherwise the first match removed |
| `OrderService.CreateAppends` | order-service.js:49-57 | a successful POST uses the counter as `orderId`, bumps it by one, appends one order of exactly the keys `orderId`, `userId`, `productId`, `quantity`, owned by the caller with the body's `productId` and `quantity`, and keeps the existing orders |
| `OrderService.CreateFailureChangesNothing` | order-service.js:39-60 | a rejected POST, or one whose product lookup fails, changes neither orders nor counter; a failed lookup answers 500 |
| `OrderService.ReadOutcomes` | order-service.js:80-91 | GET by id never changes the store; no match gives 404, a first match owned by someone else gives 403, otherwise the first match is returned |
| `OrderService.UpdateGuards` | order-service.js:105-133 | PUT with no match gives 404 and with an owner mismatch gives 403 whatever the lookup would say; a failed lookup on an owned match gives 500 with the lookup's message, and 500 comes from nothing else; in all three nothing changes |
| `OrderService.UpdateMergesOnlyMatch` | order-service.js:126 | a successful PUT keeps length and counter, replaces only the first match by old fields overridden by body fields, and lets the body rewrite `orderId` and `userId` |
| `OrderService.RemoveDeletesOnlyMatch` | order-service.js:144-160 | DELETE without a match gives 404 and for another caller's order 403, both unchanged; otherwise it splices out exactly the first match |
| `OrderService.RouteRoles` | order-service.js:33-143 | a verified non-admin is refused the listing, and a verified non-customer is refused the other four routes, with the store unchanged |
| `OrderService.ListReturnsAll` | order-service.js:65-71 | an admin gets the whole array, unchanged |
| `OrderService.Orders.constructor` | order-service.js:29-30 | the counter starts at 1 and the array empty |
| `OrderService.Orders.Post` | order-service.js:33-62 | the handler's new state and answer are those of the POST route function |
| `OrderService.Orders.GetAll` | order-service.js:65-71 | the handler answers as the listing route function |
| `OrderService.Orders.GetById` | order-service.js:74-96 | the handler answers as the GET by id route function |
| `OrderService.Orders.Put` | order-service.js:99-135 | the handler's `findIndex` and index assignment give the state and answer of the PUT route function |
| `OrderService.Orders.Delete` | order-service.js:138-165 | the handler's `findIndex` and `splice` give the state and answer of the DELETE route function |
| `UserService.NewUser` | user-service.js:62-67 | defines the stored user: `id` from the counter, `username`, `password` and `role` from the body |
| `UserService.LoginQuery` | user-service.js:44-46 | defines the login `find` callback: username and password both strictly equal to the body's |
| `UserService.TokenPayload` | user-service.js:32-35 | defines the signed payload `{ id, role }` of the user |
| `UserService.GenerateToken` | user-service.js:31-37 | defines `generateToken`: the payload signed with "Microservice" for 3600 seconds |
| `UserService.SelfOrAdmin` | user-service.js:80 | defines the access test: the path id is the caller's id, or the caller's role is "admin" (also lines 100 and 129) |
| `UserService.Login` | user-service.js:40-57 | defines POST /login: 401 without a user matching username and password, otherwise a token for the first such user |
| `UserService.Create` | user-service.js:60-73 | defines POST /: no token; a new user numbered by the counter appended and answered with 201 |
| `UserService.Read` | user-service.js:76-93 | defines GET /:id: `authenticateToken()`, 403 unless self or admin, 404 without a match, otherwise the first match |
| `UserService.Update` | user-service.js:96-117 | defines PUT /:id: the same checks, then the body spread over the first match |
| `UserService.Remove` | user-service.js:120-146 | defines DELETE /:id: the same checks, then the first match removed |
| `UserService.LoginIssuesTokenForFirstMatch` | user-service.js:31-53 | login never changes the store; without a user matching both username and password it answers 401, otherwise a token signing `{id, role}` of the first such user with "Microservice" for 3600 seconds |
| `UserService.CreateAppends` | user-service.js:60-69 | sign-up needs no token, uses the counter as `id`, bumps it by one, appends exactly `{id, username, password, role}` from the body and answers 201 |
| `UserService.AccessRule` | user-service.js:80-141 | the by-id routes answer 403 with no change exactly when the path id is not the caller's id and the caller is not an admin, even for an id no user has |
| `UserService.NotFoundChangesNothing` | user-service.js:81-136 | an allowed by-id call without a match answers 404 and changes nothing; an allowed GET returns the first match |
| `UserService.UpdateAndRemoveTouchOnlyMatch` | user-service.js:101-137 | a successful PUT merges the body into only the first match; a successful DELETE splices out exactly that record |
| `UserService.LoginTokenOpensOwnRecord` | user-service.js:31-53 | with a verifier that accepts what the signer signs under the shared secret, the login token sent as `Bearer <token>` authenticates as the stored user's id and role, and GET of that id answers 200 with the first record carrying that id (another user's, if a PUT gave an earlier user the same id) |
| `UserService.Users.constructor` | user-service.js:27-28 | the counter starts at 1 and the array empty |
| `UserService.Users.PostLogin` | user-service.js:40-57 | the handler answers as the login route function |
| `UserService.Users.Post` | user-service.js:60-73 | the handler's new state and answer are those of the sign-up route function |
| `UserService.Users.GetById` | user-service.js:76-93 | the handler answers as the GET by id route function |
| `UserService.Users.Put` | user-service.js:96-117 | the handler's `findIndex` and index assignment give the state and answer of the PUT route function |
| `UserService.Users.Delete` | user-service.js:120-146 | the handler's `findIndex` and `splice` give the state and answer of the DELETE route function |
| `ProductService.NewProduct` | product-service.js:35-39 | defines the stored product: `productId` from the counter, `prodName` and `prodPrice` from the body |
| `ProductService.Create` | product-service.js:28-48 | defines POST /: admin role, then a new product numbered by the counter appended and answered with 201 |
| `ProductService.List` | product-service.js:51-57 | defines GET /all: no token, the whole array |
| `ProductService.Read` | product-service.js:60-73 | defines GET /:productId: no token, the first match or 404 |
| `ProductService.Update` | product-service.js:76-100 | defines PUT /:productId: admin role, 500 without a match, otherwise the body spread over the first match |
| `ProductService.Remove` | product-service.js:103-127 | defines DELETE /:productId: admin role, 404 without a match, otherwise the first match removed |
| `ProductService.CreateAppends` | product-service.js:28-48 | an admin POST uses the counter as `productId`, bumps it by one, appends exactly `{productId, prodName, prodPrice}` and answers 201 |
| `ProductService.ReadsAreOpen` | product-service.js:51-73 | the listing and GET by id need no token and never change the store; GET by id returns the first match or 404 |
| `ProductService.WritesTouchOnlyMatch` | product-service.js:84-120 | for an admin, PUT on a missing id answers 500 and DELETE 404, both unchanged; on a found id PUT merges into that record only and DELETE splices out exactly it |
| `ProductService.WritesNeedAdmin` | product-service.js:28-107 | a verified caller whose role is not admin is refused POST, PUT and DELETE with the store unchanged |
| `ProductService.Products.constructor` | product-service.js:24-25 | the counter starts at 1 and the array empty |
| `ProductService.Products.Post` | product-service.js:28-48 | the handler's new state and answer are those of the POST route function |
| `ProductService.Products.GetAll` | product-service.js:51-57 | the handler answers the whole array |
| `ProductService.Products.GetById` | product-service.js:60-73 | the handler answers as the GET by id route function |
| `ProductService.Products.Put` | product-service.js:76-100 | the handler's `findIndex` and index assignment give the state and answer of the PUT route function |
| `ProductService.Products.Delete` | product-service.js:103-127 | the handler's `findIndex` and `splice` give the state and answer of the DELETE route function |

## Left out

- secure-gateway.js: it only loads certificates and mounts three
  `http-proxy-middleware` proxies; prefix matching and forwarding happen
  in those libraries.
- middleware/limiter.js: it only configures `express-rate-limit` (60 s
  window, 10 requests); the counting is library code. No route's rate
  limiting is modelled.
- middleware/sanitation.js: its validator chains never reject a request,
  because no handler calls `validationResult`. Their trimming and escaping
  of fields is library code and is not modelled.
- JWT signing and verification (HMAC, expiry, the clock) are the
  function parameters `Signer` and `Verifier`. The decoded claims carry
  only `id` and `role`, not `iat` and `exp`.
- `parseInt` is not modelled: path ids arrive parsed as `Option<int>`.
  So in the order service the difference between `parseInt(x, 10)` (GET)
  and `parseInt(x)` (PUT, DELETE) for inputs such as "0x10" is not
  captured; the user and product routes all pass radix 10.
- The order service's product lookup is the `Lookup` parameter; the URL it
  builds from `parseInt(req.body.productId)` and the product service's
  answer to it are not linked to the product store.
- JavaScript numbers are unbounded integers here: no floating point,
  fractions, NaN stored in records or overflow of the counters.
- Record values are primitives only. Objects and arrays inside request
  bodies, a body that is not an object, and the order of keys in a record
  are not modelled.
- The shape of message bodies (`{message}`, `{error}`, plain text) is not
  distinguished; only their text is kept. The 500 answers from the
  `catch` blocks for unexpected exceptions are not modelled, except for a
  failed product lookup; no other step of the handlers can throw for the
  inputs modelled.
- Concurrency: each handler is one atomic step. The interleaving at the
  `await` in the order POST and PUT, which can leave the found index stale,
  is not captured.
- HTTPS servers, certificate reads and `listen` are I/O and are left out.
