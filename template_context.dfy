/** The per-render language table of internal/handlers/template_context.go:
    a uint64 counter hands out context ids, a table maps each live id to its
    language, and one slot holds the id of the render in progress. */
module TemplateContext {
  import opened Gin
  import I18n
  import Params

  /** 2^64: uint64 arithmetic is modulo this. */
  const Uint64Modulus: nat := 0x1_0000_0000_0000_0000

  /** The fallback language of a context that is unknown. */
  const FallbackLanguage := "en"

  class Contexts {
    var contextCounter: nat
    var templateContexts: map<nat, string>
    var currentContextID: nat

    /** Counter and ids are uint64 values; every live id was handed out, so
        none lies above the counter. */
    predicate Valid()
      reads this
    {
      contextCounter < Uint64Modulus && currentContextID < Uint64Modulus
      && forall id | id in templateContexts :: 0 < id <= contextCounter
    }

    /** The package state at start-up: counter 0, no contexts, current id 0. */
    constructor ()
      ensures Valid()
      ensures contextCounter == 0 && templateContexts == map[] && currentContextID == 0
    {
      contextCounter := 0;
      templateContexts := map[];
      currentContextID := 0;
    }

    /** SetTemplateContext: advances the counter (wrapping at 2^64) and
        records the language under the new counter value, which it returns.
        Until the counter wraps, the new id is larger than every id handed
        out before, so it was not in the table. */
    method SetTemplateContext(language: string) returns (contextID: nat)
      requires Valid()
      modifies this
      ensures contextCounter == (old(contextCounter) + 1) % Uint64Modulus
      ensures contextID == contextCounter
      ensures templateContexts == old(templateContexts)[contextID := language]
      ensures currentContextID == old(currentContextID)
      ensures old(contextCounter) + 1 < Uint64Modulus ==>
                Valid() && contextID == old(contextCounter) + 1 && contextID !in old(templateContexts)
      ensures GetTemplateLanguage(contextID) == language
    {
      contextCounter := (contextCounter + 1) % Uint64Modulus;
      contextID := contextCounter;
      templateContexts := templateContexts[contextID := language];
    }

    /** GetTemplateLanguage: the recorded language, "en" for an id with none. */
    function GetTemplateLanguage(contextID: nat): (lang: string)
      reads this
      ensures contextID in templateContexts ==> lang == templateContexts[contextID]
      ensures contextID !in templateContexts ==> lang == FallbackLanguage
    {
      if contextID in templateContexts then templateContexts[contextID] else FallbackLanguage
    }

    /** CleanupTemplateContext: forgets exactly the given id. */
    method CleanupTemplateContext(contextID: nat)
      requires Valid()
      modifies this
      ensures Valid()
      ensures templateContexts == old(templateContexts) - {contextID}
      ensures GetTemplateLanguage(contextID) == FallbackLanguage
      ensures forall id | id != contextID :: GetTemplateLanguage(id) == old(GetTemplateLanguage(id))
      ensures contextCounter == old(contextCounter) && currentContextID == old(currentContextID)
    {
      templateContexts := templateContexts - {contextID};
    }

    /** SetCurrentContext: the slot now holds the given id. */
    method SetCurrentContext(contextID: nat)
      requires Valid() && contextID < Uint64Modulus
      modifies this
      ensures Valid()
      ensures currentContextID == contextID && GetCurrentContext() == contextID
      ensures contextCounter == old(contextCounter) && templateContexts == old(templateContexts)
    {
      currentContextID := contextID;
    }

    /** GetCurrentContext: the id last passed to SetCurrentContext, 0 before. */
    function GetCurrentContext(): (contextID: nat)
      reads this
      ensures contextID == currentContextID
    {
      currentContextID
    }

    /** TranslateInTemplate: T in the current context's language. */
    function TranslateInTemplate(reg: I18n.Registry, key: string): (r: string)
      requires reg.initialized
      reads this, reg
      ensures r == reg.T(GetTemplateLanguage(GetCurrentContext()), key)
    {
      reg.T(GetTemplateLanguage(currentContextID), key)
    }

    /** TranslateInTemplateWithParams: the shared pairing in the current
        context's language. */
    method TranslateInTemplateWithParams(reg: I18n.Registry, key: string, params: seq<Value>)
      returns (r: Params.Translation)
      requires reg.initialized
      ensures var lang := GetTemplateLanguage(GetCurrentContext());
              (|params| > 0 && |params| % 2 == 0 ==>
                 r == Params.WithParams(reg.TWithParams(lang, key, Params.PairsOf(params, |params| / 2))))
              && (!(|params| > 0 && |params| % 2 == 0) ==> r == Params.Plain(reg.T(lang, key)))
    {
      var contextID := GetCurrentContext();
      var lang := GetTemplateLanguage(contextID);
      r := Params.TranslateWithParams(reg, lang, key, params);
    }

    /** TranslateInTemplateWithCount: TWithCount in the current context's language. */
    function TranslateInTemplateWithCount(reg: I18n.Registry, key: string, count: int): (r: I18n.Rendering)
      requires reg.initialized
      reads this, reg
      ensures r == reg.TWithCount(GetTemplateLanguage(GetCurrentContext()), key, count)
    {
      reg.TWithCount(GetTemplateLanguage(currentContextID), key, count)
    }
  }

  /** A render's life cycle: a context registered for `language` keeps
      answering with it while other contexts come and go, and answers "en"
      once it is cleaned up. */
  method RenderLifeCycle(contexts: Contexts, language: string, other: nat) returns (during: string, after: string)
    requires contexts.Valid() && contexts.contextCounter + 1 < Uint64Modulus
    modifies contexts
    ensures during == language && after == FallbackLanguage
  {
    var id := contexts.SetTemplateContext(language);
    if other != id {
      contexts.CleanupTemplateContext(other);
    }
    during := contexts.GetTemplateLanguage(id);
    contexts.CleanupTemplateContext(id);
    after := contexts.GetTemplateLanguage(id);
  }
}
