/** Language detection and the request-bound translation helpers
    (internal/middleware/language.go). */
module Language {
  import opened Common
  import opened Gin
  import I18n
  import Params

  // ---------------------------------------------------------------------------
  // parseAcceptLanguage

  /** The steps after the first cut keep out ',' when the entry has none, and
      add neither ';', '-' nor an upper-case letter. */
  lemma {:induction false} EntryShape(first: string)
    requires ',' !in first
    ensures var r := CutAt(ToLower(CutAt(TrimSpace(first), ';')), '-');
            ',' !in r && ';' !in r && '-' !in r && forall i | 0 <= i < |r| :: !IsUpperAscii(r[i])
  {
    var trimmed := TrimSpace(first);
    var noQuality := CutAt(trimmed, ';');
    var lowered := ToLower(noQuality);
    var r := CutAt(lowered, '-');
    assert r == lowered[..|r|];
    assert noQuality == trimmed[..|noQuality|];
    forall i | 0 <= i < |r|
      ensures r[i] != ',' && r[i] != ';' && !IsUpperAscii(r[i])
    {
      assert r[i] == LowerChar(noQuality[i]);
      assert noQuality[i] in trimmed;
      assert noQuality[i] != ',';
      assert noQuality[i] != ';';
    }
  }

  /** The primary language of an Accept-Language header: its first
      comma-separated entry, trimmed, without a quality suffix after ';',
      ASCII-lower-cased, and cut before the first '-'. The result is a prefix
      of the lower-cased entry, never holds a separator of the header syntax
      and never an upper-case ASCII letter. */
  function PrimaryLanguage(acceptLang: string): (r: string)
    ensures HasPrefix(ToLower(CutAt(TrimSpace(CutAt(acceptLang, ',')), ';')), r)
    ensures ',' !in r && ';' !in r && '-' !in r
    ensures forall i | 0 <= i < |r| :: !IsUpperAscii(r[i])
  {
    EntryShape(CutAt(acceptLang, ','));
    CutAt(ToLower(CutAt(TrimSpace(CutAt(acceptLang, ',')), ';')), '-')
  }

  lemma ExampleFirstEntry()
    ensures CutAt("en-US;q=0.9,fr", ',') == "en-US;q=0.9"
  {
    assert "en-US;q=0.9,fr" == "en-US;q=0.9" + [','] + "fr";
    CutAtJoin("en-US;q=0.9", ',', "fr");
  }

  lemma ExampleTrim()
    ensures TrimSpace("en-US;q=0.9") == "en-US;q=0.9"
  {
    var s := "en-US;q=0.9";
    assert s[0] == 'e' && s[|s| - 1] == '9';
    TrimSpaceNoEdges(s);
  }

  lemma ExampleQualityCut()
    ensures CutAt("en-US;q=0.9", ';') == "en-US"
  {
    assert "en-US;q=0.9" == "en-US" + [';'] + "q=0.9";
    CutAtJoin("en-US", ';', "q=0.9");
  }

  lemma ExamplePrimary()
    ensures CutAt(ToLower("en-US"), '-') == "en"
  {
    assert ToLower("en-US") == "en-us";
    assert "en-us" == "en" + ['-'] + "us";
    CutAtJoin("en", '-', "us");
  }

  /** "en-US;q=0.9,fr" has the primary language "en". */
  lemma {:induction false} PrimaryLanguageExample()
    ensures PrimaryLanguage("en-US;q=0.9,fr") == "en"
  {
    ExampleFirstEntry();
    ExampleTrim();
    ExampleQualityCut();
    ExamplePrimary();
  }

  /** parseAcceptLanguage, step by step as the handler does it. strings.Split
      never returns an empty slice, so its "en" fallback cannot be reached
      and is not part of the model. */
  method ParseAcceptLanguage(acceptLang: string) returns (lang: string)
    ensures lang == PrimaryLanguage(acceptLang)
  {
    var languages0 := CutAt(acceptLang, ',');
    lang := TrimSpace(languages0);
    var idx := IndexOf(lang, ';');
    if idx != -1 {
      lang := lang[..idx];
    }
    lang := ToLower(lang);
    idx := IndexOf(lang, '-');
    if idx != -1 {
      lang := lang[..idx];
    }
  }

  // ---------------------------------------------------------------------------
  // Language resolution

  /** isValidLanguage: whether the registry lists the language. The loop is
      the same linear search as the registry's own contains. */
  method IsValidLanguage(reg: I18n.Registry, lang: string) returns (valid: bool)
    ensures valid <==> lang in reg.availableLangs
  {
    var supportedLanguages := reg.GetAvailableLanguages();
    valid := I18n.SliceContains(supportedLanguages, lang);
  }

  /** The language chosen for a request from the ?lang parameter, the
      "language" cookie (None when absent) and the Accept-Language header,
      given the available languages: the first source that is non-empty and
      available wins, in that order, and "en" is the last resort. */
  function ResolveLanguage(query: string, cookie: Option<string>, acceptLang: string, available: seq<string>): string
  {
    if query != "" && query in available then query
    else if cookie.Some? && cookie.value != "" && cookie.value in available then cookie.value
    else if acceptLang != "" && PrimaryLanguage(acceptLang) in available then PrimaryLanguage(acceptLang)
    else "en"
  }

  /** The chosen language is an available one or "en". */
  lemma {:induction false} ResolvedIsAvailableOrDefault(query: string, cookie: Option<string>, acceptLang: string,
                                                          available: seq<string>)
    ensures var r := ResolveLanguage(query, cookie, acceptLang, available);
            r in available || r == "en"
  {
  }

  /** A valid ?lang parameter decides alone: cookie and header are not read. */
  lemma {:induction false} QueryHasPriority(query: string, cookie: Option<string>, acceptLang: string,
                                            available: seq<string>)
    requires query != "" && query in available
    ensures ResolveLanguage(query, cookie, acceptLang, available) == query
  {
  }

  /** A source whose value is not available is skipped: the result is the
      same as if the source were absent. */
  lemma {:induction false} UnavailableQuerySkipped(query: string, cookie: Option<string>, acceptLang: string,
                                                   available: seq<string>)
    requires query !in available
    ensures ResolveLanguage(query, cookie, acceptLang, available) == ResolveLanguage("", cookie, acceptLang, available)
  {
  }

  lemma {:induction false} UnavailableCookieSkipped(query: string, cookie: Option<string>, acceptLang: string,
                                                    available: seq<string>)
    requires cookie.Some? && cookie.value !in available
    ensures ResolveLanguage(query, cookie, acceptLang, available) == ResolveLanguage(query, None, acceptLang, available)
  {
  }

  lemma {:induction false} UnavailableHeaderSkipped(query: string, cookie: Option<string>, acceptLang: string,
                                                    available: seq<string>)
    requires PrimaryLanguage(acceptLang) !in available
    ensures ResolveLanguage(query, cookie, acceptLang, available) == ResolveLanguage(query, cookie, "", available)
  {
  }

  /** With no source available the default "en" is chosen, whether or not
      "en" is itself available. */
  lemma {:induction false} NoSourceGivesEnglish(query: string, cookie: Option<string>, acceptLang: string,
                                                available: seq<string>)
    requires query !in available && (cookie.None? || cookie.value !in available)
    requires PrimaryLanguage(acceptLang) !in available
    ensures ResolveLanguage(query, cookie, acceptLang, available) == "en"
  {
  }

  /** The chosen language is empty only when "" is itself an available
      language, which happens when a file named ".json" was loaded. */
  lemma {:induction false} ResolvedNonEmpty(query: string, cookie: Option<string>, acceptLang: string,
                                            available: seq<string>)
    requires "" !in available
    ensures ResolveLanguage(query, cookie, acceptLang, available) != ""
  {
  }

  /** getLanguageFromRequest. */
  method GetLanguageFromRequest(c: Context, reg: I18n.Registry) returns (lang: string)
    ensures lang == ResolveLanguage(c.Query("lang"), c.Cookie("language"), c.GetHeader("Accept-Language"),
                                    reg.availableLangs)
  {
    lang := c.Query("lang");
    if lang != "" {
      var valid := IsValidLanguage(reg, lang);
      if valid {
        return lang;
      }
    }
    var cookie := c.Cookie("language");
    if cookie.Some? && cookie.value != "" {
      var valid := IsValidLanguage(reg, cookie.value);
      if valid {
        return cookie.value;
      }
    }
    var acceptLang := c.GetHeader("Accept-Language");
    if acceptLang != "" {
      lang := ParseAcceptLanguage(acceptLang);
      var valid := IsValidLanguage(reg, lang);
      if valid {
        return lang;
      }
    }
    return "en";
  }

  /** Thirty days, the lifetime of the language cookie. */
  const LanguageCookieMaxAge := 86400 * 30

  /** LanguageMiddleware: the chosen language is stored under "language" and,
      unless it is empty, written back as a 30-day cookie that scripts can
      read; nothing else changes. */
  method LanguageMiddleware(c: Context, reg: I18n.Registry)
    modifies c
    ensures var lang := ResolveLanguage(c.Query("lang"), c.Cookie("language"), c.GetHeader("Accept-Language"),
                                        reg.availableLangs);
            c.keys == old(c.keys)["language" := Str(lang)]
            && c.setCookies == old(c.setCookies)
                 + (if lang != "" then [ResponseCookie("language", lang, LanguageCookieMaxAge, "/", "", false, false)]
                    else [])
    ensures c.aborted == old(c.aborted) && c.response == old(c.response)
  {
    var lang := GetLanguageFromRequest(c, reg);
    c.Set("language", Str(lang));
    if lang != "" {
      c.SetCookie("language", lang, LanguageCookieMaxAge, "/", "", false, false);
    }
  }

  // ---------------------------------------------------------------------------
  // The request-bound helpers

  /** The stored language must be a string: the handler's type assertion
      would panic otherwise. */
  predicate LanguageTyped(c: Context)
    reads c
  {
    "language" in c.keys ==> c.keys["language"].Str?
  }

  /** GetLanguage: the stored language, "en" when none is stored. */
  function GetLanguage(c: Context): (lang: string)
    requires LanguageTyped(c)
    reads c
    ensures "language" in c.keys ==> lang == c.keys["language"].s
    ensures "language" !in c.keys ==> lang == "en"
  {
    match c.Get("language")
    case Some(v) => v.s
    case None => "en"
  }

  /** After the middleware has run, GetLanguage reads back the chosen language. */
  lemma {:induction false} MiddlewareLanguageIsRead(keys: map<string, Value>, lang: string)
    ensures var stored := keys["language" := Str(lang)];
            "language" in stored && stored["language"].Str? && stored["language"].s == lang
  {
  }

  /** T: translation in the request's language. */
  function T(c: Context, reg: I18n.Registry, key: string): (r: string)
    requires LanguageTyped(c) && reg.initialized
    reads c, reg
    ensures r == reg.T(GetLanguage(c), key)
  {
    reg.T(GetLanguage(c), key)
  }

  /** TWithParams: the shared pairing, in the request's language. */
  method TWithParams(c: Context, reg: I18n.Registry, key: string, params: seq<Value>) returns (r: Params.Translation)
    requires LanguageTyped(c) && reg.initialized
    ensures |params| > 0 && |params| % 2 == 0 ==>
              r == Params.WithParams(reg.TWithParams(GetLanguage(c), key, Params.PairsOf(params, |params| / 2)))
    ensures !(|params| > 0 && |params| % 2 == 0) ==> r == Params.Plain(reg.T(GetLanguage(c), key))
  {
    var lang := GetLanguage(c);
    r := Params.TranslateWithParams(reg, lang, key, params);
  }

  /** TWithCount: plural translation in the request's language. */
  function TWithCount(c: Context, reg: I18n.Registry, key: string, count: int): (r: I18n.Rendering)
    requires LanguageTyped(c) && reg.initialized
    reads c, reg
    ensures r == reg.TWithCount(GetLanguage(c), key, count)
  {
    reg.TWithCount(GetLanguage(c), key, count)
  }
}
