/** The login page, the login decision sequence and logout
    (internal/handlers/auth.go). */
module AuthHandlers {
  import opened Common
  import opened Gin
  import Config
  import Services
  import Jwt
  import Language
  import TemplateHelpers

  const LoginTemplate := "login.html"
  const LoginTitle := "login.title"
  const ErrMissingCredentials := "login.error.missing_credentials"
  const ErrInvalidCredentials := "login.error.invalid_credentials"
  const ErrTokenGeneration := "login.error.token_generation"

  /** The session cookie lives as long as the token. */
  const TokenCookieMaxAge := 3600

  /** LoginPage: a request that carries a non-empty "token" cookie is sent to
      the dashboard, whether or not the token is valid; any other request gets
      the login form. */
  method LoginPage(c: Context)
    requires Language.LanguageTyped(c)
    modifies c
    ensures c.keys == old(c.keys) && c.aborted == old(c.aborted) && c.setCookies == old(c.setCookies)
    ensures c.Cookie("token").Some? && c.Cookie("token").value != "" ==>
              c.response == Redirect(StatusFound, "/dashboard")
    ensures !(c.Cookie("token").Some? && c.Cookie("token").value != "") ==>
              c.response == Html(StatusOK, LoginTemplate,
                                 TemplateHelpers.RenderedData(c, Some(map["title" := Str(LoginTitle)])))
  {
    var token := c.Cookie("token");
    if token.Some? && token.value != "" {
      c.Redirect(StatusFound, "/dashboard");
      return;
    }
    TemplateHelpers.RenderWithTranslations(c, LoginTemplate, Some(map["title" := Str(LoginTitle)]));
  }

  datatype LoginData = LoginData(username: string, password: string)

  /** ShouldBind with both fields required: a field that is missing or empty
      fails the binding. */
  function BindLogin(form: map<string, string>): (r: Option<LoginData>)
    ensures r.Some? <==> "username" in form && form["username"] != "" && "password" in form && form["password"] != ""
    ensures r.Some? ==> r.value == LoginData(form["username"], form["password"])
  {
    if "username" in form && form["username"] != "" && "password" in form && form["password"] != ""
    then Some(LoginData(form["username"], form["password"]))
    else None
  }

  /** What the outside world answers during one login: the client
      constructors and the trial calls seen by ValidateCredentials, those seen
      by the later, separate GetUserPermissions, the clock, the token codec
      and the signer's outcome. */
  datatype LoginWorld = LoginWorld(
    cfg: Config.Config,
    validateInit: Services.ClientInit,
    validateTrials: Services.Trials,
    probeInit: Services.ClientInit,
    probeTrials: Services.Trials,
    now: int,
    codec: Jwt.Codec,
    signing: Outcome)

  /** How a login ends: the form again with an error message, or a token. */
  datatype LoginOutcome = ShowError(message: string) | IssueToken(token: string)

  /** The login decision: bind, validate, probe, issue. Each failing stage
      ends the sequence with its own message; after a successful validation
      the token carries the validated policy name and the probed permissions. */
  function LoginDecision(form: map<string, string>, w: LoginWorld): (r: LoginOutcome)
    ensures BindLogin(form).None? ==> r == ShowError(ErrMissingCredentials)
    ensures BindLogin(form).Some? ==>
              var d := BindLogin(form).value;
              var validated := Services.ValidateCredentials(w.cfg, d.username, d.password, w.validateInit, w.validateTrials);
              (validated.Failure? ==> r == ShowError(ErrInvalidCredentials))
              && (validated.Success? && w.signing.Fail? ==> r == ShowError(ErrTokenGeneration))
              && (validated.Success? && w.signing.Pass? ==>
                    r == IssueToken(w.codec.encode(Jwt.Sign(
                           Jwt.SessionClaims(d.username, d.password, validated.value.policyName,
                                             Services.ProbedPermissions(w.cfg, d.username, d.password, w.probeInit, w.probeTrials),
                                             w.now),
                           Jwt.JWTSecret))))
  {
    match BindLogin(form)
    case None => ShowError(ErrMissingCredentials)
    case Some(d) =>
      match Services.ValidateCredentials(w.cfg, d.username, d.password, w.validateInit, w.validateTrials)
      case Failure(_) => ShowError(ErrInvalidCredentials)
      case Success(userInfo) =>
        var permissions := Services.ProbedPermissions(w.cfg, d.username, d.password, w.probeInit, w.probeTrials);
        match Jwt.GenerateJWTWithUserInfo(d.username, d.password, userInfo.policyName, permissions, w.now, w.codec, w.signing)
        case Failure(_) => ShowError(ErrTokenGeneration)
        case Success(token) => IssueToken(token)
  }

  /** When the probe sees the same constructors and trial outcomes as the
      validation, every token Login issues grants all six flags and the
      "admin" policy. */
  lemma {:induction false} ConsistentLoginGrantsAll(form: map<string, string>, w: LoginWorld)
    requires w.probeInit == w.validateInit && w.probeTrials == w.validateTrials
    requires LoginDecision(form, w).IssueToken?
    ensures var d := BindLogin(form).value;
            LoginDecision(form, w).token
              == w.codec.encode(Jwt.Sign(Jwt.SessionClaims(d.username, d.password, "admin", Services.AllPermissions(), w.now),
                                         Jwt.JWTSecret))
  {
    var d := BindLogin(form).value;
    Services.ValidatedUserGetsAllFlags(w.cfg, d.username, d.password, w.validateInit, w.validateTrials);
  }

  /** A login whose token round-trips through the codec yields a session that
      the middleware accepts for the next hour, with the user's own
      credentials in it. */
  lemma {:induction false} IssuedSessionIsAccepted(form: map<string, string>, w: LoginWorld, later: int)
    requires LoginDecision(form, w).IssueToken?
    requires var d := BindLogin(form).value;
             var validated := Services.ValidateCredentials(w.cfg, d.username, d.password, w.validateInit, w.validateTrials);
             Jwt.RoundTrips(w.codec, Jwt.Sign(Jwt.SessionClaims(d.username, d.password, validated.value.policyName,
                                             Services.ProbedPermissions(w.cfg, d.username, d.password, w.probeInit, w.probeTrials),
                                             w.now), Jwt.JWTSecret))
    requires later < w.now + Jwt.TokenLifetime
    ensures var d := BindLogin(form).value;
            var parsed := Jwt.Parse(LoginDecision(form, w).token, Jwt.JWTSecret, later, w.codec);
            parsed.Valid? && parsed.claims.username == d.username && parsed.claims.password == d.password
  {
    var d := BindLogin(form).value;
    var validated := Services.ValidateCredentials(w.cfg, d.username, d.password, w.validateInit, w.validateTrials);
    var permissions := Services.ProbedPermissions(w.cfg, d.username, d.password, w.probeInit, w.probeTrials);
    Jwt.IssuedTokenVerifies(d.username, d.password, validated.value.policyName, permissions, w.now, later, w.codec);
  }

  /** The login form with an error message, as rendered for request `c`:
      status 200, the login template, the login title and the message under
      "error", in the request's language. */
  function LoginErrorPage(c: Context, message: string): (r: Response)
    requires Language.LanguageTyped(c)
    reads c
    ensures r.Html? && r.code == StatusOK && r.template == LoginTemplate
    ensures "title" in r.data && r.data["title"] == Str(LoginTitle)
    ensures "error" in r.data && r.data["error"] == Str(message)
    ensures "language" in r.data && r.data["language"] == Str(Language.GetLanguage(c))
  {
    Html(StatusOK, LoginTemplate,
         TemplateHelpers.RenderedData(c, Some(map["title" := Str(LoginTitle), "error" := Str(message)])))
  }

  /** Login, step by step: an error ends the sequence with the form and sets
      no cookie; a token is set as an HttpOnly cookie for one hour and the
      browser is sent to the dashboard. */
  method Login(c: Context, form: map<string, string>, w: LoginWorld)
    requires Language.LanguageTyped(c)
    modifies c
    ensures c.keys == old(c.keys) && c.aborted == old(c.aborted)
    ensures LoginDecision(form, w).ShowError? ==>
              c.response == LoginErrorPage(c, LoginDecision(form, w).message) && c.setCookies == old(c.setCookies)
    ensures LoginDecision(form, w).IssueToken? ==>
              c.setCookies == old(c.setCookies)
                + [ResponseCookie("token", LoginDecision(form, w).token, TokenCookieMaxAge, "/", "", false, true)]
              && c.response == Redirect(StatusFound, "/dashboard")
  {
    var loginData := BindLogin(form);
    if loginData.None? {
      TemplateHelpers.RenderWithTranslations(c, LoginTemplate,
                                             Some(map["title" := Str(LoginTitle), "error" := Str(ErrMissingCredentials)]));
      return;
    }
    var username, password := loginData.value.username, loginData.value.password;
    var userInfo := Services.ValidateCredentials(w.cfg, username, password, w.validateInit, w.validateTrials);
    if userInfo.Failure? {
      TemplateHelpers.RenderWithTranslations(c, LoginTemplate,
                                             Some(map["title" := Str(LoginTitle), "error" := Str(ErrInvalidCredentials)]));
      return;
    }
    var permissions := Services.GetUserPermissions(w.cfg, username, password, w.probeInit, w.probeTrials);
    var token := Jwt.GenerateJWTWithUserInfo(username, password, userInfo.value.policyName, permissions,
                                             w.now, w.codec, w.signing);
    if token.Failure? {
      TemplateHelpers.RenderWithTranslations(c, LoginTemplate,
                                             Some(map["title" := Str(LoginTitle), "error" := Str(ErrTokenGeneration)]));
      return;
    }
    c.SetCookie("token", token.value, TokenCookieMaxAge, "/", "", false, true);
    c.Redirect(StatusFound, "/dashboard");
  }

  /** Logout: the token cookie is overwritten with an empty, already expired
      one, then the browser is sent to the login page. */
  method Logout(c: Context)
    modifies c
    ensures c.setCookies == old(c.setCookies) + [ResponseCookie("token", "", -1, "/", "", false, true)]
    ensures c.response == Redirect(StatusFound, "/")
    ensures c.keys == old(c.keys) && c.aborted == old(c.aborted)
  {
    c.SetCookie("token", "", -1, "/", "", false, true);
    c.Redirect(StatusFound, "/");
  }
}
