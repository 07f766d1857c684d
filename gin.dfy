/** The part of a gin request context the modelled handlers use: the request's
    query, cookies and headers, the per-request key store written with
    c.Set and read with c.Get, the abort flag, the cookies set on the
    response and the response itself. */
module Gin {
  import opened Common
  import Jwt
  import ByteFormat

  /** A dynamically typed value (`interface{}`) as the handlers store it in the
      key store or in a template data map (gin.H). The three translator
      values stand for the closures bound to a language that the template
      helpers install. */
  datatype Value =
    | Nil
    | Str(s: string)
    | Int(i: int)
    | Flags(flags: map<string, bool>)
    | ClaimsValue(claims: Jwt.Claims)
    | Translator(lang: string)
    | ParamTranslator(lang: string)
    | CountTranslator(lang: string)
    | SizeText(text: ByteFormat.ByteText)

  type H = map<string, Value>

  /** A Set-Cookie header of the response. */
  datatype ResponseCookie = ResponseCookie(
    name: string,
    value: string,
    maxAge: int,
    path: string,
    domain: string,
    secure: bool,
    httpOnly: bool)

  /** The response a handler chose; a later write replaces an earlier one. */
  datatype Response =
    | NoResponse
    | Redirect(code: int, location: string)
    | Json(code: int, body: H)
    | Html(code: int, template: string, data: H)
    | Status(code: int)

  const StatusOK := 200
  const StatusFound := 302
  const StatusBadRequest := 400
  const StatusUnauthorized := 401
  const StatusForbidden := 403
  const StatusInternalServerError := 500

  class Context {
    const query: map<string, string>
    const requestCookies: map<string, string>
    const headers: map<string, string>

    var keys: map<string, Value>
    var aborted: bool
    var setCookies: seq<ResponseCookie>
    var response: Response

    constructor (query: map<string, string>, requestCookies: map<string, string>, headers: map<string, string>)
      ensures this.query == query && this.requestCookies == requestCookies && this.headers == headers
      ensures keys == map[] && !aborted && setCookies == [] && response == NoResponse
    {
      this.query := query;
      this.requestCookies := requestCookies;
      this.headers := headers;
      keys := map[];
      aborted := false;
      setCookies := [];
      response := NoResponse;
    }

    /** c.Query: the parameter's value, "" when it is absent. */
    function Query(name: string): (r: string)
      ensures name !in query ==> r == ""
      ensures name in query ==> r == query[name]
    {
      if name in query then query[name] else ""
    }

    /** c.Cookie: the cookie's value, or the "no cookie" error when the request
        has none of that name. An empty value is still a value. */
    function Cookie(name: string): (r: Option<string>)
      ensures r.Some? <==> name in requestCookies
      ensures r.Some? ==> r.value == requestCookies[name]
    {
      if name in requestCookies then Some(requestCookies[name]) else None
    }

    /** c.GetHeader: the header's value, "" when it is absent. */
    function GetHeader(name: string): (r: string)
      ensures name !in headers ==> r == ""
      ensures name in headers ==> r == headers[name]
    {
      if name in headers then headers[name] else ""
    }

    /** c.Get: the stored value and whether the key exists. */
    function Get(key: string): (r: Option<Value>)
      reads this
      ensures r.Some? <==> key in keys
      ensures r.Some? ==> r.value == keys[key]
    {
      if key in keys then Some(keys[key]) else None
    }

    method Set(key: string, value: Value)
      modifies this
      ensures keys == old(keys)[key := value]
      ensures aborted == old(aborted) && setCookies == old(setCookies) && response == old(response)
    {
      keys := keys[key := value];
    }

    method Abort()
      modifies this
      ensures aborted
      ensures keys == old(keys) && setCookies == old(setCookies) && response == old(response)
    {
      aborted := true;
    }

    /** c.AbortWithStatus: a status line with an empty body, and the chain
        stopped. gin.Default's Recovery middleware answers a handler's panic
        with AbortWithStatus(500). */
    method AbortWithStatus(code: int)
      modifies this
      ensures aborted && response == Status(code)
      ensures keys == old(keys) && setCookies == old(setCookies)
    {
      aborted := true;
      response := Status(code);
    }

    method Redirect(code: int, location: string)
      modifies this
      ensures response == Response.Redirect(code, location)
      ensures keys == old(keys) && aborted == old(aborted) && setCookies == old(setCookies)
    {
      response := Response.Redirect(code, location);
    }

    method JSON(code: int, body: H)
      modifies this
      ensures response == Json(code, body)
      ensures keys == old(keys) && aborted == old(aborted) && setCookies == old(setCookies)
    {
      response := Json(code, body);
    }

    method HTML(code: int, template: string, data: H)
      modifies this
      ensures response == Html(code, template, data)
      ensures keys == old(keys) && aborted == old(aborted) && setCookies == old(setCookies)
    {
      response := Html(code, template, data);
    }

    method SetCookie(name: string, value: string, maxAge: int, path: string, domain: string,
                     secure: bool, httpOnly: bool)
      modifies this
      ensures setCookies == old(setCookies) + [ResponseCookie(name, value, maxAge, path, domain, secure, httpOnly)]
      ensures keys == old(keys) && aborted == old(aborted) && response == old(response)
    {
      setCookies := setCookies + [ResponseCookie(name, value, maxAge, path, domain, secure, httpOnly)];
    }
  }
}
