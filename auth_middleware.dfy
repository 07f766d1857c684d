/** The authentication middleware and the permission helpers
    (internal/middleware/auth.go). */
module AuthMiddleware {
  import opened Common
  import opened Gin
  import Jwt

  /** Where AuthRequired takes the token from: the "token" cookie whenever the
      request has one, even an empty one; otherwise the Authorization header,
      which must start with "Bearer ", minus that prefix. */
  function TokenFromRequest(cookies: map<string, string>, headers: map<string, string>): (r: Option<string>)
    ensures "token" in cookies ==> r == Some(cookies["token"])
    ensures "token" !in cookies ==>
              (r.Some? <==> "Authorization" in headers && HasPrefix(headers["Authorization"], "Bearer "))
    ensures "token" !in cookies && r.Some? ==> "Bearer " + r.value == headers["Authorization"]
  {
    if "token" in cookies then Some(cookies["token"])
    else
      var authHeader := if "Authorization" in headers then headers["Authorization"] else "";
      if authHeader == "" || !HasPrefix(authHeader, "Bearer ") then None
      else Some(TrimPrefix(authHeader, "Bearer "))
  }

  /** A token cookie, when present, makes the Authorization header irrelevant. */
  lemma {:induction false} CookieShadowsHeader(cookies: map<string, string>, h1: map<string, string>, h2: map<string, string>)
    requires "token" in cookies
    ensures TokenFromRequest(cookies, h1) == TokenFromRequest(cookies, h2)
  {
  }

  /** The claims of the request's session, or `None` when there is no usable
      token or it does not parse and validate under the constant key. */
  function Authenticate(c: Context, now: int, codec: Jwt.Codec): (r: Option<Jwt.Claims>)
    ensures r.Some? <==>
              TokenFromRequest(c.requestCookies, c.headers).Some?
              && Jwt.Parse(TokenFromRequest(c.requestCookies, c.headers).value, Jwt.JWTSecret, now, codec).Valid?
    ensures r.Some? ==>
              r.value == Jwt.Parse(TokenFromRequest(c.requestCookies, c.headers).value, Jwt.JWTSecret, now, codec).claims
  {
    match TokenFromRequest(c.requestCookies, c.headers)
    case None => None
    case Some(tokenString) =>
      match Jwt.Parse(tokenString, Jwt.JWTSecret, now, codec)
      case Invalid(_) => None
      case Valid(claims) => Some(claims)
  }

  /** The key-store entries AuthRequired writes for a session. */
  function SessionKeys(keys: map<string, Value>, claims: Jwt.Claims): (r: map<string, Value>)
    ensures r.Keys == keys.Keys + {"username", "password", "policy_name", "permissions", "user_claims"}
    ensures r["username"] == Str(claims.username) && r["password"] == Str(claims.password)
    ensures r["policy_name"] == Str(claims.policyName) && r["permissions"] == Flags(claims.permissions)
    ensures r["user_claims"] == ClaimsValue(claims)
    ensures forall k | k in keys && k !in {"username", "password", "policy_name", "permissions", "user_claims"} ::
              r[k] == keys[k]
  {
    keys["username" := Str(claims.username)]["password" := Str(claims.password)]
        ["policy_name" := Str(claims.policyName)]["permissions" := Flags(claims.permissions)]
        ["user_claims" := ClaimsValue(claims)]
  }

  /** AuthRequired: without a usable, valid token the request is redirected to
      "/" and aborted with nothing stored; otherwise the claims' user fields
      are stored in the context and the request goes on. */
  method AuthRequired(c: Context, now: int, codec: Jwt.Codec)
    modifies c
    ensures Authenticate(c, now, codec).None? ==>
              c.response == Redirect(StatusFound, "/") && c.aborted
              && c.keys == old(c.keys) && c.setCookies == old(c.setCookies)
    ensures Authenticate(c, now, codec).Some? ==>
              c.keys == SessionKeys(old(c.keys), Authenticate(c, now, codec).value)
              && c.aborted == old(c.aborted) && c.response == old(c.response) && c.setCookies == old(c.setCookies)
  {
    var tokenString: string;
    var cookie := c.Cookie("token");
    if cookie.None? {
      var authHeader := c.GetHeader("Authorization");
      if authHeader == "" || !HasPrefix(authHeader, "Bearer ") {
        c.Redirect(StatusFound, "/");
        c.Abort();
        return;
      }
      tokenString := TrimPrefix(authHeader, "Bearer ");
    } else {
      tokenString := cookie.value;
    }
    var token := Jwt.Parse(tokenString, Jwt.JWTSecret, now, codec);
    if token.Invalid? {
      c.Redirect(StatusFound, "/");
      c.Abort();
      return;
    }
    var claims := token.claims;
    c.Set("username", Str(claims.username));
    c.Set("password", Str(claims.password));
    c.Set("policy_name", Str(claims.policyName));
    c.Set("permissions", Flags(claims.permissions));
    c.Set("user_claims", ClaimsValue(claims));
  }

  /** GetUserPermissions: the stored permission map, or the empty map when
      there is none or the stored value is not a permission map. */
  function GetUserPermissions(c: Context): (m: map<string, bool>)
    reads c
    ensures "permissions" in c.keys && c.keys["permissions"].Flags? ==> m == c.keys["permissions"].flags
    ensures !("permissions" in c.keys && c.keys["permissions"].Flags?) ==> m == map[]
  {
    match c.Get("permissions")
    case Some(Flags(perms)) => perms
    case _ => map[]
  }

  /** CheckPermission: a permission holds only when the stored map has it set
      to true; a missing map or a missing key means false. */
  function CheckPermission(c: Context, permission: string): (b: bool)
    reads c
    ensures b <==> "permissions" in c.keys && c.keys["permissions"].Flags?
                   && permission in c.keys["permissions"].flags && c.keys["permissions"].flags[permission]
  {
    var permissions := GetUserPermissions(c);
    permission in permissions && permissions[permission]
  }

  /** After AuthRequired has admitted a session, the permission checks read the
      session's own permission claims. */
  lemma {:induction false} SessionPermissionsAreClaims(keys: map<string, Value>, claims: Jwt.Claims, permission: string)
    ensures var stored := SessionKeys(keys, claims)["permissions"];
            stored.Flags? && (permission in stored.flags && stored.flags[permission]
                              <==> permission in claims.permissions && claims.permissions[permission])
  {
  }

  const ErrInsufficientPermissions := "Insufficient permissions"

  /** RequirePermission: the request goes on, untouched, exactly when the
      permission holds; otherwise it gets 403 with an error body and is aborted. */
  method RequirePermission(c: Context, permission: string)
    modifies c
    ensures old(CheckPermission(c, permission)) ==>
              c.keys == old(c.keys) && c.aborted == old(c.aborted) && c.response == old(c.response)
              && c.setCookies == old(c.setCookies)
    ensures !old(CheckPermission(c, permission)) ==>
              c.response == Json(StatusForbidden, map["error" := Str(ErrInsufficientPermissions)])
              && c.aborted && c.keys == old(c.keys) && c.setCookies == old(c.setCookies)
  {
    if !CheckPermission(c, permission) {
      c.JSON(StatusForbidden, map["error" := Str(ErrInsufficientPermissions)]);
      c.Abort();
      return;
    }
  }
}
