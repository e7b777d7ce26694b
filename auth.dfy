/** middleware/auth.js: bearer-token extraction, the `authenticate`
    middleware and the two authorisation policies. The JWT library and the
    process environment are parameters. */
module Auth {
  import opened Base
  import opened Text
  import opened Accounts

  /** A request header as Express exposes it: missing, a string, or some
      other value (an array, say). */
  datatype Header = NoHeader | StrHeader(s: string) | OtherHeader

  predicate HeaderTruthy(h: Header) {
    (h.StrHeader? && h.s != "") || h.OtherHeader?
  }

  /** The headers `authenticate` looks at: `authorization`, `Authorization`
      and `x-auth-token`. */
  datatype Headers = Headers(authorization: Header, authorizationCapitalised: Header, xAuthToken: Header)

  /** Scheme prefix compared against the lower-cased header value
      (section 2.1 of RFC 6750, scheme name case-insensitive as section 2.1
      of RFC 7235 requires). */
  const BearerPrefix: string := "bearer "

  /** `req.headers.authorization || req.headers.Authorization`. */
  function AuthHeader(h: Headers): (a: Header)
    ensures HeaderTruthy(h.authorization) ==> a == h.authorization
    ensures !HeaderTruthy(h.authorization) ==> a == h.authorizationCapitalised
  {
    if HeaderTruthy(h.authorization) then h.authorization else h.authorizationCapitalised
  }

  /** The token carried by the Authorization value: after a case-insensitive
      `bearer ` prefix, or else the whole value; trimmed either way, and
      `null` for a value that is not a string. */
  function HeaderToken(auth: Header): (t: Option<string>)
    ensures t.Some? <==> auth.StrHeader?
    ensures t.Some? ==> |t.value| <= |auth.s| && Trim(t.value) == t.value
  {
    match auth
    case StrHeader(s) =>
      var v := if BearerPrefix <= ToLower(s) then Trim(s[|BearerPrefix|..]) else Trim(s);
      TrimIdempotent(if BearerPrefix <= ToLower(s) then s[|BearerPrefix|..] else s);
      Some(v)
    case _ => None
  }

  /** `getTokenFromRequest`: the Authorization-derived token when it is a
      non-empty string, otherwise whatever `x-auth-token` holds. */
  function GetTokenFromRequest(h: Headers): (r: Header)
    ensures var t := HeaderToken(AuthHeader(h));
            if t.Some? && t.value != "" then r == StrHeader(t.value) else r == h.xAuthToken
    ensures r != h.xAuthToken ==> r.StrHeader? && r.s != "" && Trim(r.s) == r.s
  {
    var t := HeaderToken(AuthHeader(h));
    if t.Some? && t.value != "" then StrHeader(t.value) else h.xAuthToken
  }

  /** The token of a string value, with or without the bearer prefix. */
  lemma StringHeaderToken(s: string)
    ensures HeaderToken(StrHeader(s))
            == Some(if BearerPrefix <= ToLower(s) then Trim(s[|BearerPrefix|..]) else Trim(s))
  {
  }

  /** A value `<scheme> <rest>` whose scheme is "Bearer" in any letter
      case carries `rest`, trimmed. */
  lemma BearerValueToken(scheme: string, rest: string)
    requires |scheme| == 6 && ToLower(scheme) == "bearer"
    ensures HeaderToken(StrHeader(scheme + " " + rest)) == Some(Trim(rest))
  {
    var s := scheme + " " + rest;
    ToLowerAppend(scheme + " ", rest);
    ToLowerAppend(scheme, " ");
    assert ToLower(scheme + " ") == BearerPrefix;
    assert BearerPrefix <= ToLower(s);
    assert s[|BearerPrefix|..] == rest;
    StringHeaderToken(s);
  }

  /** `Authorization: <scheme> <token>` with the scheme spelt "Bearer" in any
      letter case yields the token, trimmed, ahead of `x-auth-token`. */
  lemma BearerTokenExtracted(h: Headers, scheme: string, token: string)
    requires |scheme| == 6 && ToLower(scheme) == "bearer"
    requires h.authorization == StrHeader(scheme + " " + token)
    requires Trim(token) != ""
    ensures GetTokenFromRequest(h) == StrHeader(Trim(token))
  {
    BearerValueToken(scheme, token);
    assert AuthHeader(h) == h.authorization;
  }

  /** A value without the bearer prefix is used verbatim, trimmed. */
  lemma BareTokenVerbatim(h: Headers, token: string)
    requires h.authorization == StrHeader(token)
    requires Trim(token) != ""
    requires !(BearerPrefix <= ToLower(token))
    ensures GetTokenFromRequest(h) == StrHeader(Trim(token))
  {
    assert token != "";
    assert AuthHeader(h) == h.authorization;
    StringHeaderToken(token);
  }

  /** `Authorization: Bearer` followed only by white space carries no
      token, so `x-auth-token` decides. */
  lemma BlankBearerFallsBack(h: Headers, scheme: string, pad: string)
    requires |scheme| == 6 && ToLower(scheme) == "bearer"
    requires h.authorization == StrHeader(scheme + " " + pad)
    requires AllSpace(pad)
    ensures GetTokenFromRequest(h) == h.xAuthToken
  {
    BearerValueToken(scheme, pad);
    assert [] + pad + [] == pad;
    TrimPadded(pad, [], []);
    assert AuthHeader(h) == h.authorization;
  }

  /** A missing or non-string Authorization value (under both spellings)
      leaves `x-auth-token` as the only source. */
  lemma NoAuthorizationUsesXAuthToken(h: Headers)
    requires !h.authorization.StrHeader? && !h.authorizationCapitalised.StrHeader?
    ensures GetTokenFromRequest(h) == h.xAuthToken
  {
  }

  /** `process.env.JWT_SECRET || process.env.JWT_PRIVATE_KEY`. */
  function ConfiguredSecret(jwtSecret: Option<string>, jwtPrivateKey: Option<string>): (s: Option<string>)
    ensures s.Some? ==> s.value != ""
    ensures s.None? <==> !Present(jwtSecret) && !Present(jwtPrivateKey)
    ensures Present(jwtSecret) ==> s == jwtSecret
  {
    if Present(jwtSecret) then jwtSecret else if Present(jwtPrivateKey) then jwtPrivateKey else None
  }

  /** What a middleware does: call `next()` or answer with an error. */
  datatype Verdict = Next | Deny(status: int, message: string)

  /** The `_id` claim of a token that `jwt.verify` accepts; `None` when
      verification throws (bad signature, expiry, not a string). */
  function VerifiedId(token: Header, secret: string, verify: (string, string) -> Option<string>): Option<string> {
    if token.StrHeader? then verify(token.s, secret) else None
  }

  /** An incoming request; `authenticate` attaches the resolved user. */
  class Request {
    const headers: Headers
    var user: Option<User>

    constructor (headers: Headers)
      ensures this.headers == headers && user == None
    {
      this.headers := headers;
      user := None;
    }

    /** `authenticate`: no token, then no secret, then a token that does not
        verify or names no stored user; only a request that passes every
        step gets `req.user` and reaches `next()`. */
    method Authenticate(jwtSecret: Option<string>, jwtPrivateKey: Option<string>,
                        verify: (string, string) -> Option<string>, users: seq<User>)
      returns (v: Verdict)
      modifies this
      ensures var token := GetTokenFromRequest(headers);
              !HeaderTruthy(token) ==> v == Deny(401, "Access denied. No token provided.")
      ensures var token := GetTokenFromRequest(headers);
              HeaderTruthy(token) && ConfiguredSecret(jwtSecret, jwtPrivateKey).None? ==>
                v == Deny(500, "JWT secret not configured.")
      ensures var token := GetTokenFromRequest(headers);
              var secret := ConfiguredSecret(jwtSecret, jwtPrivateKey);
              v == Next <==> HeaderTruthy(token) && secret.Some?
                             && VerifiedId(token, secret.value, verify).Some?
                             && HasId(users, VerifiedId(token, secret.value, verify).value)
      ensures v.Deny? && v.status != 500 ==> v.status == 401
      ensures var token := GetTokenFromRequest(headers);
              HeaderTruthy(token) && ConfiguredSecret(jwtSecret, jwtPrivateKey).Some? && v != Next ==>
                v == Deny(401, "Invalid token.")
      ensures v == Next ==>
                var id := VerifiedId(GetTokenFromRequest(headers), ConfiguredSecret(jwtSecret, jwtPrivateKey).value, verify).value;
                user == FindById(users, id) && user.Some? && user.value in users && user.value.id == id
      ensures v != Next ==> user == old(user)
    {
      var token := GetTokenFromRequest(headers);
      if !HeaderTruthy(token) {
        return Deny(401, "Access denied. No token provided.");
      }
      var secret := ConfiguredSecret(jwtSecret, jwtPrivateKey);
      if secret.None? {
        return Deny(500, "JWT secret not configured.");
      }
      var id := VerifiedId(token, secret.value, verify);
      if id.None? {
        return Deny(401, "Invalid token.");
      }
      var found := FindById(users, id.value);
      if found.None? {
        return Deny(401, "Invalid token.");
      }
      user := found;
      v := Next;
    }
  }

  /** `requireAdmin`: passes exactly the requests whose user is an admin;
      a request without a user is refused with 403 as well. */
  function RequireAdmin(user: Option<User>): (v: Verdict)
    ensures v == Next <==> user.Some? && user.value.isAdmin
    ensures v != Next ==> v == Deny(403, "Access denied. Admins only.")
  {
    if !(user.Some? && user.value.isAdmin) then Deny(403, "Access denied. Admins only.") else Next
  }

  /** `requireSelfOrAdmin(userIdFromRequest)`, given the id the extractor
      returned. */
  function RequireSelfOrAdmin(user: Option<User>, targetId: Option<string>): (v: Verdict)
    ensures v == Deny(401, "Unauthorized") <==> user.None?
    ensures user.Some? && user.value.isAdmin ==> v == Next
    ensures user.Some? && !user.value.isAdmin ==>
              (v == Next <==> targetId == Some(user.value.id) && user.value.id != "")
    ensures user.Some? && v != Next ==> v == Deny(403, "Forbidden")
  {
    if user.None? then Deny(401, "Unauthorized")
    else if user.value.isAdmin || (Present(targetId) && user.value.id == targetId.value) then Next
    else Deny(403, "Forbidden")
  }
}
