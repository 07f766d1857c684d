/** The variadic key/value pairing shared by the three template translation
    helpers (TWithParams in internal/middleware/language.go,
    TranslateInTemplateWithParams in internal/handlers/template_context.go and
    the "tWithParams" closures in internal/handlers/template_helpers.go):
    params[0], params[1], params[2], ... are read as (key, value) pairs and
    collected into the parameter map of a translation. */
module Params {
  import opened Gin
  import I18n

  /** The key of pair `j`. */
  function PairKey(params: seq<Value>, j: nat): Value
    requires 2 * j + 1 < |params|
  {
    params[2 * j]
  }

  /** The value of pair `j`. */
  function PairValue(params: seq<Value>, j: nat): Value
    requires 2 * j + 1 < |params|
  {
    params[2 * j + 1]
  }

  /** The map after the first `n` pairs have been read: a pair whose key is a
      string sets that key to the pair's value, overwriting an earlier pair
      with the same key; a pair whose key is not a string is dropped. */
  function PairsOf(params: seq<Value>, n: nat): map<string, Value>
    requires 2 * n <= |params|
  {
    if n == 0 then map[]
    else
      var m := PairsOf(params, n - 1);
      match PairKey(params, n - 1)
      case Str(key) => m[key := PairValue(params, n - 1)]
      case _ => m
  }

  /** The keys of the map are exactly the string keys of the pairs. */
  lemma {:induction false} PairKeys(params: seq<Value>, n: nat, key: string)
    requires 2 * n <= |params|
    ensures key in PairsOf(params, n) <==> exists j | 0 <= j < n :: PairKey(params, j) == Str(key)
  {
    if n > 0 {
      PairKeys(params, n - 1, key);
      if key in PairsOf(params, n) && PairKey(params, n - 1) != Str(key) {
        var j :| 0 <= j < n - 1 && PairKey(params, j) == Str(key);
        assert 0 <= j < n;
      }
    }
  }

  /** A key is bound to the value of its last pair among the first `n`. */
  lemma {:induction false} LastPairWins(params: seq<Value>, n: nat, j: nat, key: string)
    requires 2 * n <= |params| && j < n
    requires PairKey(params, j) == Str(key)
    requires forall j' | j < j' < n :: PairKey(params, j') != Str(key)
    ensures key in PairsOf(params, n) && PairsOf(params, n)[key] == PairValue(params, j)
  {
    if j < n - 1 {
      LastPairWins(params, n - 1, j, key);
      assert PairKey(params, n - 1) != Str(key);
    }
  }

  /** The pairing loop: for i := 0; i < len(params); i += 2. It is only
      entered for an even number of parameters, so params[i+1] exists. */
  method PairParams(params: seq<Value>) returns (paramsMap: map<string, Value>)
    requires |params| % 2 == 0
    ensures paramsMap == PairsOf(params, |params| / 2)
  {
    paramsMap := map[];
    var i := 0;
    while i < |params|
      invariant 0 <= i <= |params| && i % 2 == 0
      invariant paramsMap == PairsOf(params, i / 2)
    {
      if params[i].Str? {
        paramsMap := paramsMap[params[i].s := params[i + 1]];
      }
      i := i + 2;
    }
  }

  /** What a template translation helper returns: the plain translation, or
      the message selected for a parameter map. */
  datatype Translation = Plain(text: string) | WithParams(rendering: I18n.Rendering)

  function TranslationText(t: Translation): string
  {
    match t
    case Plain(text) => text
    case WithParams(r) => I18n.RenderingText(r)
  }

  /** A params-taking translation helper for language `lang`: a positive, even
      number of parameters is paired into a map and given to TWithParams; any
      other number falls back to plain T. Either way the message is the one T
      selects: the parameters never change which message is chosen. */
  method TranslateWithParams(reg: I18n.Registry, lang: string, key: string, params: seq<Value>)
    returns (r: Translation)
    requires reg.initialized
    ensures |params| > 0 && |params| % 2 == 0 ==>
              r == WithParams(reg.TWithParams(lang, key, PairsOf(params, |params| / 2)))
    ensures !(|params| > 0 && |params| % 2 == 0) ==> r == Plain(reg.T(lang, key))
    ensures TranslationText(r) == reg.T(lang, key)
  {
    if |params| > 0 && |params| % 2 == 0 {
      var paramsMap := PairParams(params);
      return WithParams(reg.TWithParams(lang, key, paramsMap));
    }
    return Plain(reg.T(lang, key));
  }
}
