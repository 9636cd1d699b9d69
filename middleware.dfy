/**
 * `verifyToken`: the bearer-token check that guards the board and list
 * routes. The decision is a function of the `authorization` header, of what
 * the token verifier says about the token, and of the stored `jwtId`; the
 * success path records the user id on the request and passes it on.
 */
module UserMiddleware {
  import opened Wrappers
  import opened Text
  import opened Values
  import opened Store
  import opened HttpStatus
  import opened Envelopes
  import AuthService

  const NoTokenMessage := "Unauthorized: No token provided"
  const InvalidTokenMessage := "Unauthorized: Invalid token"
  const SessionExpiredMessage := "Session expired. Refresh token using /user/refresh-token"

  /**
   * The decoded claims. An `email` that is absent or not a string is `None`:
   * a non-string email makes the user lookup throw, and the catch answers it
   * as an invalid token, the same as a missing one. `jti` is kept as the
   * JSON value the token carries.
   */
  datatype Payload = Payload(email: Option<string>, jti: Option<Json>)

  /** What the token verifier (signature and expiry check) reports. */
  datatype Verification = Decoded(payload: Payload) | TokenExpired | Invalid

  /** Either `next()` runs for this user id, or an error response is written. */
  datatype Decision = Next(userId: nat) | Deny(status: int, body: Envelope<string>)

  /** `sendErrorResponse`: the status and envelope come from the status table. */
  function SendErrorResponse(code: int, message: string): (d: Decision)
    requires code in Codes
    ensures d.Deny? && d.status == code
    ensures d.body.statusCode == code && d.body.data == message
    ensures d.body.flag == Some(Table()[code].flag) && d.body.message == Some(Table()[code].message)
  {
    Deny(Table()[code].code, FormResponse(Table()[code].code, message))
  }

  /** `authorization.split(' ')[1]` once the header is known to start with "Bearer ". */
  function BearerToken(authorization: Option<string>): (token: Option<string>)
    ensures token.None? <==> authorization.None? || !StartsWith(authorization.value, "Bearer ")
    ensures token.Some? ==> ' ' !in token.value
  {
    if authorization.None? || !StartsWith(authorization.value, "Bearer ") then None
    else
      var h := authorization.value;
      assert h == "Bearer" + [' '] + h[7..];
      SplitAfterPiece("Bearer", ' ', h[7..]);
      Some(Split(h, ' ')[1])
  }

  /** The email claim taken as a truth value: present and non-empty. */
  predicate ClaimTruthy(c: Option<string>) {
    c.Some? && c.value != ""
  }

  /** The `jti` claim taken as a truth value, with JavaScript's truthiness. */
  predicate JtiTruthy(c: Option<Json>) {
    c.Some? && Truthy(c.value)
  }

  /**
   * The header carries a bearer token that verifies, names an email and a
   * `jti`, and the `jti` is the stored `jwtId` of the user with that email.
   */
  predicate SessionMatches(t: Tables, verify: string -> Verification, authorization: Option<string>) {
    && BearerToken(authorization).Some?
    && var v := verify(BearerToken(authorization).value);
       && v.Decoded? && ClaimTruthy(v.payload.email) && JtiTruthy(v.payload.jti)
       && v.payload.email.value in t.users
       && v.payload.jti.value == JStr(t.users[v.payload.email.value].jwtId)
  }

  /** The decision `verifyToken` takes. */
  function Authenticate(t: Tables, verify: string -> Verification, authorization: Option<string>): (d: Decision)
    ensures d.Next? <==> SessionMatches(t, verify, authorization)
    ensures d.Next? ==> d.userId == t.users[verify(BearerToken(authorization).value).payload.email.value].id
    ensures d.Deny? ==> d.status in {401, 498}
  {
    var token := BearerToken(authorization);
    if token.None? then SendErrorResponse(401, NoTokenMessage)
    else match verify(token.value)
      case TokenExpired => SendErrorResponse(498, SessionExpiredMessage)
      case Invalid => SendErrorResponse(401, InvalidTokenMessage)
      case Decoded(p) =>
        if !ClaimTruthy(p.email) || !JtiTruthy(p.jti) then SendErrorResponse(401, InvalidTokenMessage)
        else if p.email.value !in t.users || p.jti.value != JStr(t.users[p.email.value].jwtId) then
          SendErrorResponse(498, SessionExpiredMessage)
        else Next(t.users[p.email.value].id)
  }

  /** The header carries the token as its second space-separated piece. */
  lemma BearerTokenIsSecondPiece(token: string)
    requires ' ' !in token
    ensures BearerToken(Some("Bearer " + token)) == Some(token)
  {
    var h := "Bearer " + token;
    assert StartsWith(h, "Bearer ");
    assert h == "Bearer" + [' '] + token;
    SplitAfterPiece("Bearer", ' ', token);
    SplitPiece(token, ' ');
  }

  /** The refusals, each with its status and message. */
  lemma Refusals(t: Tables, verify: string -> Verification, authorization: Option<string>)
    ensures BearerToken(authorization).None? ==>
      Authenticate(t, verify, authorization) == SendErrorResponse(401, NoTokenMessage)
    ensures BearerToken(authorization).Some? && verify(BearerToken(authorization).value).TokenExpired? ==>
      Authenticate(t, verify, authorization) == SendErrorResponse(498, SessionExpiredMessage)
    ensures BearerToken(authorization).Some? && verify(BearerToken(authorization).value).Invalid? ==>
      Authenticate(t, verify, authorization) == SendErrorResponse(401, InvalidTokenMessage)
    ensures BearerToken(authorization).Some? && verify(BearerToken(authorization).value).Decoded? ==>
      var p := verify(BearerToken(authorization).value).payload;
      && (!ClaimTruthy(p.email) || !JtiTruthy(p.jti) ==>
            Authenticate(t, verify, authorization) == SendErrorResponse(401, InvalidTokenMessage))
      && (ClaimTruthy(p.email) && JtiTruthy(p.jti) && (p.email.value !in t.users || p.jti.value != JStr(t.users[p.email.value].jwtId)) ==>
            Authenticate(t, verify, authorization) == SendErrorResponse(498, SessionExpiredMessage))
  {
  }

  /**
   * A `jti` that is truthy but not a string never equals a stored `jwtId`:
   * such a token passes the claim check and is refused as a stale session.
   */
  lemma NonStringJtiIsStale(t: Tables, verify: string -> Verification, authorization: Option<string>)
    requires BearerToken(authorization).Some?
    requires verify(BearerToken(authorization).value).Decoded?
    requires var p := verify(BearerToken(authorization).value).payload;
             ClaimTruthy(p.email) && JtiTruthy(p.jti) && !p.jti.value.JStr?
    ensures Authenticate(t, verify, authorization) == SendErrorResponse(498, SessionExpiredMessage)
  {
  }

  /**
   * One live session per user: in a well-formed store, two headers accepted
   * for the same user carry the same `jti`.
   */
  lemma OneLiveSession(t: Tables, verify: string -> Verification, h1: Option<string>, h2: Option<string>)
    requires Valid(t)
    requires Authenticate(t, verify, h1).Next? && Authenticate(t, verify, h2).Next?
    requires Authenticate(t, verify, h1).userId == Authenticate(t, verify, h2).userId
    ensures verify(BearerToken(h1).value).payload.jti == verify(BearerToken(h2).value).payload.jti
  {
    var e1 := verify(BearerToken(h1).value).payload.email.value;
    var e2 := verify(BearerToken(h2).value).payload.email.value;
    assert t.users[e1].id == t.users[e2].id;
  }

  /**
   * A token accepted before a successful login for its email is refused with
   * 498 afterwards, provided the identifier generator returned a value other
   * than the stored `jwtId`.
   */
  lemma LoginRevokesEarlierToken(t: Tables, crypto: AuthService.Crypto, verify: string -> Verification,
                                 email: string, password: string, jti: string, authorization: Option<string>)
    requires AuthService.LoginStep(t, crypto, email, password, jti).1.Success?
    requires jti != t.users[email].jwtId
    requires Authenticate(t, verify, authorization).Next?
    requires verify(BearerToken(authorization).value).payload.email == Some(email)
    ensures Authenticate(AuthService.LoginStep(t, crypto, email, password, jti).0, verify, authorization)
         == SendErrorResponse(498, SessionExpiredMessage)
  {
    var t' := AuthService.LoginStep(t, crypto, email, password, jti).0;
    assert t'.users[email].jwtId == jti;
  }

  /**
   * The access token a successful login returns is accepted for that user,
   * given a verifier that decodes what the signer signed and claims that
   * test truthy.
   */
  lemma LoginTokenIsAccepted(t: Tables, crypto: AuthService.Crypto, verify: string -> Verification,
                             email: string, password: string, jti: string)
    requires AuthService.LoginStep(t, crypto, email, password, jti).1.Success?
    requires email != "" && jti != ""
    requires verify(crypto.sign(AuthService.Claims(email, jti), AuthService.AccessLifetime))
          == Decoded(Payload(Some(email), Some(JStr(jti))))
    requires ' ' !in crypto.sign(AuthService.Claims(email, jti), AuthService.AccessLifetime)
    ensures var out := AuthService.LoginStep(t, crypto, email, password, jti);
            Authenticate(out.0, verify, Some("Bearer " + out.1.value.accessToken)) == Next(t.users[email].id)
  {
    var token := crypto.sign(AuthService.Claims(email, jti), AuthService.AccessLifetime);
    BearerTokenIsSecondPiece(token);
  }

  /** The request object; `id` is set by the middleware. */
  class Request {
    var id: Option<nat>

    constructor ()
      ensures id == None
    {
      id := None;
    }
  }

  /**
   * `verifyToken` against the store: on acceptance it sets `req.id`, calls
   * `next` once and writes nothing; otherwise it writes the error response
   * and leaves the request alone.
   */
  method VerifyToken(db: Db, verify: string -> Verification, authorization: Option<string>, req: Request)
    returns (nextCalls: nat, response: Option<Decision>)
    modifies req
    ensures Authenticate(db.Snapshot(), verify, authorization).Next? ==>
      req.id == Some(Authenticate(db.Snapshot(), verify, authorization).userId) && nextCalls == 1 && response.None?
    ensures Authenticate(db.Snapshot(), verify, authorization).Deny? ==>
      req.id == old(req.id) && nextCalls == 0 && response == Some(Authenticate(db.Snapshot(), verify, authorization))
  {
    nextCalls, response := 0, None;
    if authorization.None? || !StartsWith(authorization.value, "Bearer ") {
      return 0, Some(SendErrorResponse(401, NoTokenMessage));
    }
    var token := BearerToken(authorization).value;
    var v := verify(token);
    if v.TokenExpired? {
      return 0, Some(SendErrorResponse(498, SessionExpiredMessage));
    } else if v.Invalid? {
      return 0, Some(SendErrorResponse(401, InvalidTokenMessage));
    }
    var p := v.payload;
    if !ClaimTruthy(p.email) || !JtiTruthy(p.jti) {
      return 0, Some(SendErrorResponse(401, InvalidTokenMessage));
    }
    if p.email.value !in db.users || p.jti.value != JStr(db.users[p.email.value].jwtId) {
      return 0, Some(SendErrorResponse(498, SessionExpiredMessage));
    }
    req.id := Some(db.users[p.email.value].id);
    nextCalls := nextCalls + 1;
  }
}
