/** The two middleware factories of middleware/authorization.js:
    `authenticateToken()` and `authorization(allowedRoles)`. Each takes the
    second space-separated word of the `authorization` header as a JSON Web
    Token, verifies it, and (for `authorization`) checks the decoded role
    against an allow-list; it then either answers 403 or sets `req.user` and
    calls `next()`. */
module Authorization {
  import opened Values
  import opened Http

  /** The signing secret shared with the user service. */
  const SecretKey: string := "Microservice"

  const HeaderName: string := "authorization"

  /** The decoded token payload that `jwt.verify` hands to its callback. */
  datatype Claims = Claims(id: Value, role: Value)

  /** `jwt.verify(token, secret)`: the decoded payload, or None when the
      token is malformed, its signature does not match the secret, or it
      has expired (the clock is folded into the function). */
  type Verifier = (string, string) -> Option<Claims>

  datatype Reason = NoCredential | InvalidCredential | InsufficientRole

  datatype Decision = Reject(reason: Reason) | Accept(user: Claims)

  const NoCredentialText: string := "Unauthorized"
  const InvalidCredentialText: string := "Unauthorized: You do not have the required permissions"
  const InsufficientRoleText: string := "Forbidden: You do not have permission to access this resource"

  /** The answer the middleware sends for a rejection: always 403. */
  function Rejection(reason: Reason): Response
  {
    match reason
    case NoCredential => Response(Forbidden, Message(NoCredentialText))
    case InvalidCredential => Response(Forbidden, Message(InvalidCredentialText))
    case InsufficientRole => Response(Forbidden, Message(InsufficientRoleText))
  }

  // ---------------------------------------------------------------------
  // Token extraction: `req.headers["authorization"]?.split(" ")[1]`

  /** `s.split(" ")`: every maximal run between single spaces, so two
      adjacent spaces give an empty word and "" gives [""]. */
  function Split(s: string): (words: seq<string>)
    ensures |words| >= 1
    ensures forall i :: 0 <= i < |words| ==> ' ' !in words[i]
    ensures Join(words) == s
    decreases |s|
  {
    if s == [] then [""]
    else
      var rest := Split(s[1..]);
      if s[0] == ' ' then
        assert Join([""] + rest) == " " + Join(rest) by {
          assert ([""] + rest)[1..] == rest;
        }
        [""] + rest
      else
        JoinCons(rest[0], rest[1..]);
        assert [rest[0]] + rest[1..] == rest;
        [[s[0]] + rest[0]] + rest[1..]
  }

  /** `words.join(" ")`, the inverse of Split. */
  function Join(words: seq<string>): string
    requires |words| >= 1
  {
    if |words| == 1 then words[0] else words[0] + " " + Join(words[1..])
  }

  lemma JoinCons(w: string, words: seq<string>)
    ensures Join([w] + words) == if words == [] then w else w + " " + Join(words)
  {
    if words != [] {
      assert ([w] + words)[1..] == words;
    }
  }

  /** Splitting a join of space-free words gives those words back. */
  lemma {:induction false} SplitJoin(words: seq<string>)
    requires |words| >= 1
    requires forall i :: 0 <= i < |words| ==> ' ' !in words[i]
    ensures Split(Join(words)) == words
    decreases |Join(words)|
  {
    var w := words[0];
    if w == [] {
      if |words| > 1 {
        assert Join(words) == " " + Join(words[1..]);
        SplitJoin(words[1..]);
        assert Join(words)[1..] == Join(words[1..]);
        assert words == [""] + words[1..];
      }
    } else {
      var tail := [w[1..]] + words[1..];
      assert forall i :: 0 <= i < |tail| ==> ' ' !in tail[i] by {
        forall i | 0 <= i < |tail| ensures ' ' !in tail[i] {
          if i > 0 { assert tail[i] == words[i]; }
        }
      }
      JoinCons(w[1..], words[1..]);
      JoinCons(w, words[1..]);
      assert words == [w] + words[1..];
      assert Join(words)[1..] == Join(tail);
      SplitJoin(tail);
      assert [w[0]] + w[1..] == w;
      assert tail[1..] == words[1..];
    }
  }

  /** The value of the `authorization` header, if the request has one. */
  function Header(headers: map<string, string>): Option<string>
  {
    if HeaderName in headers then Some(headers[HeaderName]) else None
  }

  /** The token: the second word of the header, if there is one and it is
      not empty (the empty string is falsy). */
  function Credential(headers: map<string, string>): (token: Option<string>)
    ensures token.Some? ==> token.value != "" && ' ' !in token.value
  {
    match Header(headers)
    case None => None
    case Some(h) =>
      var words := Split(h);
      if |words| >= 2 && words[1] != "" then Some(words[1]) else None
  }

  /** A header "<scheme> <token>" or "<scheme> <token> <more>" yields the
      token, whatever the scheme. */
  lemma CredentialIsSecondWord(scheme: string, token: string, rest: string)
    requires ' ' !in scheme && ' ' !in token && token != ""
    requires rest == "" || rest[0] == ' '
    ensures Credential(map[HeaderName := scheme + " " + token + rest]) == Some(token)
  {
    var h := scheme + " " + token + rest;
    var tail := if rest == "" then [] else Split(rest[1..]);
    var words := [scheme, token] + tail;
    JoinCons(token, tail);
    JoinCons(scheme, [token] + tail);
    assert [scheme] + ([token] + tail) == words;
    if rest != "" {
      assert rest == " " + rest[1..];
    }
    assert Join(words) == h;
    SplitJoin(words);
  }

  /** Conversely, a header the token was taken from has that shape. */
  lemma CredentialShape(headers: map<string, string>) returns (scheme: string, rest: string)
    requires Credential(headers).Some?
    ensures ' ' !in scheme && (rest == "" || rest[0] == ' ')
    ensures Header(headers) == Some(scheme + " " + Credential(headers).value + rest)
  {
    var words := Split(Header(headers).value);
    scheme := words[0];
    rest := if |words| == 2 then "" else " " + Join(words[2..]);
    var h := Header(headers).value;
    assert words == [words[0]] + words[1..];
    JoinCons(words[0], words[1..]);
    assert words[1..] == [words[1]] + words[2..];
    JoinCons(words[1], words[2..]);
    assert Join(words[1..]) == words[1] + rest;
    assert h == scheme + " " + (words[1] + rest);
    assert scheme + " " + (words[1] + rest) == scheme + " " + words[1] + rest;
  }

  /** The scheme word is never looked at. */
  lemma SchemeNeverChecked(scheme1: string, scheme2: string, rest: string)
    requires ' ' !in scheme1 && ' ' !in scheme2
    ensures Credential(map[HeaderName := scheme1 + " " + rest])
         == Credential(map[HeaderName := scheme2 + " " + rest])
  {
    var tail := Split(rest);
    JoinCons(scheme1, tail);
    JoinCons(scheme2, tail);
    SplitJoin([scheme1] + tail);
    SplitJoin([scheme2] + tail);
  }

  // ---------------------------------------------------------------------
  // The two decision procedures

  /** `allowedRoles.includes(user.role)`, for a list of role names. */
  predicate RoleAllowed(user: Claims, allowedRoles: seq<string>)
  {
    user.role.Str? && user.role.s in allowedRoles
  }

  /** The decision of `authenticateToken()`. */
  function Authenticate(headers: map<string, string>, verify: Verifier): Decision
  {
    match Credential(headers)
    case None => Reject(NoCredential)
    case Some(token) =>
      match verify(token, SecretKey)
      case None => Reject(InvalidCredential)
      case Some(user) => Accept(user)
  }

  /** The decision of `authorization(allowedRoles)`. */
  function Authorize(headers: map<string, string>, allowedRoles: seq<string>, verify: Verifier): Decision
  {
    match Credential(headers)
    case None => Reject(NoCredential)
    case Some(token) =>
      match verify(token, SecretKey)
      case None => Reject(InvalidCredential)
      case Some(user) =>
        if !RoleAllowed(user, allowedRoles) then Reject(InsufficientRole) else Accept(user)
  }

  /** `authorization` accepts exactly the verified tokens whose role is allowed,
      and then with the decoded claims. */
  lemma AuthorizeAccepts(headers: map<string, string>, allowedRoles: seq<string>, verify: Verifier, user: Claims)
    ensures Authorize(headers, allowedRoles, verify) == Accept(user)
        <==> Credential(headers).Some?
             && verify(Credential(headers).value, SecretKey) == Some(user)
             && RoleAllowed(user, allowedRoles)
  {
  }

  /** `authenticateToken` accepts every verified token, whatever its role. */
  lemma AuthenticateAccepts(headers: map<string, string>, verify: Verifier, user: Claims)
    ensures Authenticate(headers, verify) == Accept(user)
        <==> Credential(headers).Some? && verify(Credential(headers).value, SecretKey) == Some(user)
  {
  }

  /** The checks run in order: credential, verification, role. A missing
      credential is reported before the verifier is consulted, and an
      invalid token is never reported as a role failure. */
  lemma CheckOrder(headers: map<string, string>, allowedRoles: seq<string>, verify: Verifier)
    ensures Credential(headers).None? ==>
              Authorize(headers, allowedRoles, verify) == Reject(NoCredential)
    ensures Credential(headers).Some? && verify(Credential(headers).value, SecretKey).None? ==>
              Authorize(headers, allowedRoles, verify) == Reject(InvalidCredential)
    ensures Authorize(headers, allowedRoles, verify) == Reject(InsufficientRole) ==>
              Authenticate(headers, verify).Accept?
              && !RoleAllowed(Authenticate(headers, verify).user, allowedRoles)
  {
  }

  /** `authorization` is `authenticateToken` followed by the role check. */
  lemma AuthorizeRefinesAuthenticate(headers: map<string, string>, allowedRoles: seq<string>, verify: Verifier)
    ensures Authorize(headers, allowedRoles, verify)
         == match Authenticate(headers, verify)
            case Reject(r) => Reject(r)
            case Accept(user) =>
              if RoleAllowed(user, allowedRoles) then Accept(user) else Reject(InsufficientRole)
  {
  }

  // ---------------------------------------------------------------------
  // The middleware's effect on the request

  /** One request/response pair as the middleware sees it. */
  class Exchange {
    const headers: map<string, string>
    var user: Option<Claims>        // `req.user`
    var nextCalls: nat              // how often `next()` has been called
    var response: Option<Response>  // what has been sent, if anything

    constructor (headers: map<string, string>)
      ensures this.headers == headers
      ensures user == None && nextCalls == 0 && response == None
    {
      this.headers := headers;
      user := None;
      nextCalls := 0;
      response := None;
    }

    /** The middleware returned by `authenticateToken()`. */
    method AuthenticateToken(verify: Verifier)
      modifies this
      ensures match Authenticate(headers, verify)
              case Accept(u) =>
                user == Some(u) && nextCalls == old(nextCalls) + 1 && response == old(response)
              case Reject(r) =>
                user == old(user) && nextCalls == old(nextCalls) && response == Some(Rejection(r))
    {
      var token := Credential(headers);
      if token.None? {
        response := Some(Rejection(NoCredential));
        return;
      }
      var decoded := verify(token.value, SecretKey);
      if decoded.None? {
        response := Some(Rejection(InvalidCredential));
        return;
      }
      user := decoded;
      nextCalls := nextCalls + 1;
    }

    /** The middleware returned by `authorization(allowedRoles)`. */
    method Authorization(allowedRoles: seq<string>, verify: Verifier)
      modifies this
      ensures match Authorize(headers, allowedRoles, verify)
              case Accept(u) =>
                user == Some(u) && nextCalls == old(nextCalls) + 1 && response == old(response)
              case Reject(r) =>
                user == old(user) && nextCalls == old(nextCalls) && response == Some(Rejection(r))
    {
      var token := Credential(headers);
      if token.None? {
        response := Some(Rejection(NoCredential));
        return;
      }
      var decoded := verify(token.value, SecretKey);
      if decoded.None? {
        response := Some(Rejection(InvalidCredential));
        return;
      }
      if !RoleAllowed(decoded.value, allowedRoles) {
        response := Some(Rejection(InsufficientRole));
        return;
      }
      user := decoded;
      nextCalls := nextCalls + 1;
    }
  }
}
