/** The token issued at signin and the two gates in front of the routes:
    `isAuth` (a bearer token that verifies) and `isAdmin` (a truthy
    `isAdmin` claim). Signing and verification are oracles supplied by the
    caller; only what the gates do with their answers is modelled. */
module Auth {
  import opened Js
  import opened Http
  import UserModel

  /** The claims signed into a token. `isAdmin` is copied from a user
      property, so it is whatever that property holds. */
  datatype Payload = Payload(id: UserModel.UserId, name: string, email: string, isAdmin: JsValue)

  /** What `jwt.sign` is given: the payload and the `expiresIn` option. */
  datatype Claims = Claims(payload: Payload, expiresInDays: nat)

  const TOKEN_LIFETIME_DAYS: nat := 30

  /** `generateToken(user)`. The User schema declares no `isAdmin` path, so
      `user.isAdmin` reads as undefined on every stored user. */
  function TokenClaims(u: UserModel.User): (c: Claims)
    ensures c.payload.id == u.id && c.payload.name == u.name && c.payload.email == u.email
    ensures c.payload.isAdmin == Undef
    ensures c.expiresInDays == TOKEN_LIFETIME_DAYS
  {
    Claims(Payload(u.id, u.name, u.email, Undef), TOKEN_LIFETIME_DAYS)
  }

  /** `authorization.slice(7, authorization.length)`: the first seven
      characters are dropped whatever they are. */
  function BearerToken(h: string): (t: string)
    ensures |h| >= 7 ==> t == h[7..]
    ensures |h| < 7 ==> t == ""
  {
    if |h| < 7 then "" else h[7..]
  }

  /** Any seven-character prefix is removed, `Bearer ` included. */
  lemma {:induction false} BearerPrefixDropped(prefix: string, token: string)
    requires |prefix| == 7
    ensures BearerToken(prefix + token) == token
  {
    assert (prefix + token)[7..] == token;
  }

  lemma BearerRoundTrip(token: string)
    ensures BearerToken("Bearer " + token) == token
  {
    BearerPrefixDropped("Bearer ", token);
  }

  /** What `isAuth` decides. */
  datatype AuthOutcome = Authenticated(user: Payload) | Rejected(error: Error)

  /** `isAuth`: no (or an empty) header is "No Token", a token the oracle
      does not accept is "Invalid Token", otherwise the decoded payload. */
  function Authenticate(header: Option<string>, verify: string -> Option<Payload>): (r: AuthOutcome)
    ensures r == Rejected(NO_TOKEN) <==> header.None? || header.value == ""
    ensures r == Rejected(INVALID_TOKEN) <==>
      header.Some? && header.value != "" && verify(BearerToken(header.value)).None?
    ensures r.Authenticated? <==>
      header.Some? && header.value != "" && verify(BearerToken(header.value)).Some?
    ensures r.Authenticated? ==> r.user == verify(BearerToken(header.value)).value
  {
    if header.None? || header.value == "" then Rejected(NO_TOKEN)
    else match verify(BearerToken(header.value))
      case None => Rejected(INVALID_TOKEN)
      case Some(p) => Authenticated(p)
  }

  /** `isAdmin`: passes (no error) exactly when there is a user whose
      `isAdmin` claim is truthy. Nothing else of the payload is consulted. */
  function AdminGate(user: Option<Payload>): (r: Option<Error>)
    ensures r.None? <==> user.Some? && Truthy(user.value.isAdmin)
    ensures r.Some? ==> r.value == INVALID_ADMIN_TOKEN
  {
    if user.Some? && Truthy(user.value.isAdmin) then None else Some(INVALID_ADMIN_TOKEN)
  }

  /** A token signed by this server, presented as `Bearer <token>`,
      authenticates as the payload it was signed with. */
  lemma IssuedTokenAuthenticates(u: UserModel.User, sign: Claims -> string, verify: string -> Option<Payload>)
    requires forall c :: verify(sign(c)) == Some(c.payload)
    ensures Authenticate(Some("Bearer " + sign(TokenClaims(u))), verify) == Authenticated(TokenClaims(u).payload)
  {
    BearerRoundTrip(sign(TokenClaims(u)));
  }

  /** ... and that payload never passes the admin gate, whatever the user's `userType`. */
  lemma IssuedTokenFailsAdminGate(u: UserModel.User, sign: Claims -> string, verify: string -> Option<Payload>)
    requires forall c :: verify(sign(c)) == Some(c.payload)
    ensures Authenticate(Some("Bearer " + sign(TokenClaims(u))), verify).Authenticated?
    ensures AdminGate(Some(Authenticate(Some("Bearer " + sign(TokenClaims(u))), verify).user))
            == Some(INVALID_ADMIN_TOKEN)
  {
    IssuedTokenAuthenticates(u, sign, verify);
  }

  /** The request and response as the middleware sees them: `req.user`, the
      response sent (if any), and how often `next()` was called. */
  class Exchange {
    var user: Option<Payload>
    var reply: Option<Error>
    var nextCalls: nat

    constructor ()
      ensures user.None? && reply.None? && nextCalls == 0
    {
      user := None;
      reply := None;
      nextCalls := 0;
    }

    /** `isAuth(req, res, next)`. */
    method IsAuth(header: Option<string>, verify: string -> Option<Payload>)
      modifies this
      ensures Authenticate(header, verify).Rejected? ==>
        && reply == Some(Authenticate(header, verify).error)
        && user == old(user) && nextCalls == old(nextCalls)
      ensures Authenticate(header, verify).Authenticated? ==>
        && user == Some(Authenticate(header, verify).user)
        && reply == old(reply) && nextCalls == old(nextCalls) + 1
    {
      if header.Some? && header.value != "" {
        var token := BearerToken(header.value);
        var decoded := verify(token);
        if decoded.None? {
          reply := Some(INVALID_TOKEN);
        } else {
          user := decoded;
          nextCalls := nextCalls + 1;
        }
      } else {
        reply := Some(NO_TOKEN);
      }
    }

    /** `isAdmin(req, res, next)`. */
    method IsAdmin()
      modifies this
      ensures user == old(user)
      ensures AdminGate(old(user)).None? ==> reply == old(reply) && nextCalls == old(nextCalls) + 1
      ensures AdminGate(old(user)).Some? ==> reply == AdminGate(old(user)) && nextCalls == old(nextCalls)
    {
      if user.Some? && Truthy(user.value.isAdmin) {
        nextCalls := nextCalls + 1;
      } else {
        reply := Some(INVALID_ADMIN_TOKEN);
      }
    }
  }
}
