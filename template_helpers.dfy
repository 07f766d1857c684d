/** The template-rendering helpers of internal/handlers/template_helpers.go:
    the data map every page is rendered with and the TemplateData record. The
    three closures bound to the request's language are the values
    Translator(lang) (plain T), ParamTranslator(lang) (Params.TranslateWithParams)
    and CountTranslator(lang) (TWithCount). */
module TemplateHelpers {
  import opened Common
  import opened Gin
  import AuthMiddleware
  import Language

  /** The keys RenderWithTranslations always sets, replacing caller values. */
  const ForcedKeys: set<string> := {"language", "t", "tWithParams", "tCount"}

  /** The keys it sets only when the caller did not supply them. */
  const DefaultedKeys: set<string> := {"username", "policy_name", "permissions"}

  /** The template data for a caller map `data`, built by the insertions
      RenderWithTranslations makes in order. Its contract is what that means:
      the four forced entries for language `lang`, the caller's own entries
      for every other key it has, and the session defaults for the user keys
      the caller left out. */
  function FillTemplateData(data: H, lang: string, username: Value, policyName: Value,
                            permissions: map<string, bool>): (r: H)
    ensures r.Keys == data.Keys + ForcedKeys + DefaultedKeys
    ensures r["language"] == Str(lang) && r["t"] == Translator(lang)
    ensures r["tWithParams"] == ParamTranslator(lang) && r["tCount"] == CountTranslator(lang)
    ensures forall k | k in data && k !in ForcedKeys :: r[k] == data[k]
    ensures "username" !in data ==> r["username"] == username
    ensures "policy_name" !in data ==> r["policy_name"] == policyName
    ensures "permissions" !in data ==> r["permissions"] == Flags(permissions)
  {
    var forced := data["language" := Str(lang)]["t" := Translator(lang)]
                      ["tWithParams" := ParamTranslator(lang)]["tCount" := CountTranslator(lang)];
    var withUser := if "username" in forced then forced else forced["username" := username];
    var withPolicy := if "policy_name" in withUser then withUser else withUser["policy_name" := policyName];
    if "permissions" in withPolicy then withPolicy else withPolicy["permissions" := Flags(permissions)]
  }

  /** c.Get with the missing value read as nil. */
  function Stored(c: Context, key: string): (v: Value)
    reads c
    ensures key in c.keys ==> v == c.keys[key]
    ensures key !in c.keys ==> v == Nil
  {
    match c.Get(key)
    case Some(value) => value
    case None => Nil
  }

  /** The data map RenderWithTranslations renders for the request `c` and the
      caller's map (None for a nil map). */
  function RenderedData(c: Context, data: Option<H>): H
    requires Language.LanguageTyped(c)
    reads c
  {
    FillTemplateData(if data.None? then map[] else data.value, Language.GetLanguage(c),
                     Stored(c, "username"), Stored(c, "policy_name"), AuthMiddleware.GetUserPermissions(c))
  }

  /** RenderWithTranslations: fills in the data map, key by key, and renders
      the template with status 200. A nil map starts out empty. */
  method RenderWithTranslations(c: Context, templateName: string, data: Option<H>)
    requires Language.LanguageTyped(c)
    modifies c
    ensures c.keys == old(c.keys) && c.aborted == old(c.aborted) && c.setCookies == old(c.setCookies)
    ensures c.response == Html(StatusOK, templateName, RenderedData(c, data))
  {
    var lang := Language.GetLanguage(c);
    var d: H := if data.None? then map[] else data.value;
    d := d["language" := Str(lang)];
    d := d["t" := Translator(lang)];
    d := d["tWithParams" := ParamTranslator(lang)];
    d := d["tCount" := CountTranslator(lang)];
    if "username" !in d {
      var username := Stored(c, "username");
      d := d["username" := username];
    }
    if "policy_name" !in d {
      var policyName := Stored(c, "policy_name");
      d := d["policy_name" := policyName];
    }
    if "permissions" !in d {
      d := d["permissions" := Flags(AuthMiddleware.GetUserPermissions(c))];
    }
    c.HTML(StatusOK, templateName, d);
  }

  /** TemplateData. */
  datatype TemplateData = TemplateData(
    title: string,
    username: Value,
    policyName: Value,
    permissions: map<string, bool>,
    language: string,
    t: Value,
    tWithParams: Value)

  /** NewTemplateData: the request's language and session fields, with the
      translation closures bound to that language. */
  function NewTemplateData(c: Context, title: string): (d: TemplateData)
    requires Language.LanguageTyped(c)
    reads c
    ensures d.title == title && d.language == Language.GetLanguage(c)
    ensures d.username == Stored(c, "username") && d.policyName == Stored(c, "policy_name")
    ensures d.permissions == AuthMiddleware.GetUserPermissions(c)
    ensures d.t == Translator(d.language) && d.tWithParams == ParamTranslator(d.language)
  {
    var lang := Language.GetLanguage(c);
    TemplateData(title, Stored(c, "username"), Stored(c, "policy_name"), AuthMiddleware.GetUserPermissions(c),
                 lang, Translator(lang), ParamTranslator(lang))
  }

  /** The two helpers agree: a page rendered without its own user entries
      shows the same session fields, language and closures as the
      TemplateData of the same request. */
  lemma {:induction false} RenderAgreesWithTemplateData(c: Context, data: Option<H>, title: string)
    requires Language.LanguageTyped(c)
    requires data.Some? ==> "username" !in data.value && "policy_name" !in data.value && "permissions" !in data.value
    ensures var r := RenderedData(c, data);
            var d := NewTemplateData(c, title);
            r["username"] == d.username && r["policy_name"] == d.policyName
            && r["permissions"] == Flags(d.permissions) && r["language"] == Str(d.language)
            && r["t"] == d.t && r["tWithParams"] == d.tWithParams
  {
  }
}
