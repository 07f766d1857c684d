/** The translation registry (internal/i18n/i18n.go): the default language,
    the languages that have a localizer, the list of available languages in
    registration order, and the messages loaded per language. The message
    bundle is modelled as a map language -> message id -> message text. */
module I18n {
  import opened Common
  import Gin

  // ---------------------------------------------------------------------------
  // File names (filepath.Base)

  function StripTrailingSlashes(p: string): (r: string)
    ensures HasPrefix(p, r)
    ensures r == [] || r[|r| - 1] != '/'
  {
    if |p| > 0 && p[|p| - 1] == '/' then StripTrailingSlashes(p[..|p| - 1]) else p
  }

  /** The part of `p` after its last '/'. */
  function AfterLastSlash(p: string): (r: string)
    ensures '/' !in r
    ensures HasSuffix(p, r)
    ensures p != [] && p[|p| - 1] != '/' ==> r != []
    decreases |p|
  {
    var i := IndexOf(p, '/');
    if i == -1 then p
    else
      var rest := AfterLastSlash(p[i + 1..]);
      assert p[|p| - |rest|..] == p[i + 1..][|p[i + 1..]| - |rest|..];
      rest
  }

  /** filepath.Base for '/'-separated paths: the last element, trailing slashes
      ignored; "." for the empty path and "/" for a path of slashes only. */
  function Base(path: string): (r: string)
    ensures path == "" ==> r == "."
    ensures path != "" && StripTrailingSlashes(path) == "" ==> r == "/"
    ensures StripTrailingSlashes(path) != "" ==> '/' !in r && HasSuffix(StripTrailingSlashes(path), r) && r != ""
  {
    if path == "" then "."
    else
      var p := StripTrailingSlashes(path);
      if p == "" then "/" else AfterLastSlash(p)
  }

  /** A translation file's language code: its base name without ".json". */
  function LanguageOfFile(path: string): (lang: string)
    ensures HasSuffix(Base(path), ".json") ==> lang + ".json" == Base(path)
    ensures !HasSuffix(Base(path), ".json") ==> lang == Base(path)
  {
    TrimSuffix(Base(path), ".json")
  }

  /** The last element of "x/y" is y when y has no slash. */
  lemma {:induction false} AfterLastSlashOfJoin(x: string, y: string)
    requires '/' !in y
    ensures AfterLastSlash(x + "/" + y) == y
    decreases |x|
  {
    var p := x + "/" + y;
    if '/' in x {
      var i := IndexOf(x, '/');
      IndexOfInPrefix(x, "/" + y, '/');
      assert p == x + ("/" + y);
      assert p[i + 1..] == x[i + 1..] + "/" + y;
      AfterLastSlashOfJoin(x[i + 1..], y);
    } else {
      IndexOfAfterPrefix(x, "/" + y, '/');
      assert p == x + ("/" + y);
      assert IndexOf(p, '/') == |x|;
      assert p[|x| + 1..] == y;
    }
  }

  /** A file "dir/lang.json" registers the language `lang`. */
  lemma {:induction false} LanguageOfJsonFile(dir: string, lang: string)
    requires '/' !in lang
    ensures LanguageOfFile(dir + "/" + lang + ".json") == lang
  {
    var name := lang + ".json";
    assert '/' !in name by {
      assert forall k | 0 <= k < |name| :: name[k] == (if k < |lang| then lang[k] else ".json"[k - |lang|]);
    }
    var path := dir + "/" + name;
    assert path == dir + "/" + lang + ".json";
    assert StripTrailingSlashes(path) == path by {
      assert path[|path| - 1] == 'n';
    }
    AfterLastSlashOfJoin(dir, name);
    assert Base(path) == name;
    assert name[|name| - |".json"|..] == ".json";
    assert name[..|name| - |".json"|] == lang;
  }

  // ---------------------------------------------------------------------------
  // The registry tables

  /** What reading and parsing one listed file gives. */
  datatype FileLoad = ReadError(error: string) | ParseError(error: string) | Parsed(messages: map<string, string>)

  datatype TranslationFile = TranslationFile(path: string, load: FileLoad)

  predicate NoDuplicates(s: seq<string>)
  {
    forall i, j | 0 <= i < j < |s| :: s[i] != s[j]
  }

  /** A snapshot of the registry's tables. */
  datatype Tables = Tables(localizers: set<string>, availableLangs: seq<string>, messages: map<string, map<string, string>>)

  /** Every available language has a localizer and vice versa, and the list
      has no duplicates. */
  predicate Consistent(t: Tables)
  {
    NoDuplicates(t.availableLangs) && t.localizers == set l | l in t.availableLangs
  }

  /** The effect of one listed file: a file that cannot be read or parsed
      changes nothing; otherwise its language gets a localizer and its
      messages are added to that language's (a message id already present is
      replaced), and the language is appended to the list unless it is there. */
  function LoadFile(t: Tables, file: TranslationFile): (r: Tables)
    ensures !file.load.Parsed? ==> r == t
    ensures file.load.Parsed? ==>
              r.localizers == t.localizers + {LanguageOfFile(file.path)}
              && r.availableLangs == (if LanguageOfFile(file.path) in t.availableLangs then t.availableLangs
                                      else t.availableLangs + [LanguageOfFile(file.path)])
  {
    if !file.load.Parsed? then t
    else
      var lang := LanguageOfFile(file.path);
      var existing := if lang in t.messages then t.messages[lang] else map[];
      Tables(t.localizers + {lang},
             if lang in t.availableLangs then t.availableLangs else t.availableLangs + [lang],
             t.messages[lang := existing + file.load.messages])
  }

  /** The effect of the listed files, in listing order. Loading only ever
      adds: no localizer is dropped and the list is only appended to. */
  function LoadFiles(t: Tables, files: seq<TranslationFile>): (r: Tables)
    ensures t.localizers <= r.localizers
    ensures |t.availableLangs| <= |r.availableLangs| && r.availableLangs[..|t.availableLangs|] == t.availableLangs
    ensures (forall i | 0 <= i < |files| :: !files[i].load.Parsed?) ==> r == t
  {
    if files == [] then t else LoadFile(LoadFiles(t, files[..|files| - 1]), files[|files| - 1])
  }

  lemma {:induction false} LoadFileKeepsConsistent(t: Tables, file: TranslationFile)
    requires Consistent(t)
    ensures Consistent(LoadFile(t, file))
    ensures t.availableLangs <= LoadFile(t, file).availableLangs
  {
    var r := LoadFile(t, file);
    assert r.availableLangs[..|t.availableLangs|] == t.availableLangs;
  }

  /** Loading files keeps the list duplicate-free and in step with the
      localizers, and only ever appends to it, so the languages registered
      first keep their places. */
  lemma {:induction false} LoadFilesKeepsConsistent(t: Tables, files: seq<TranslationFile>)
    requires Consistent(t)
    ensures Consistent(LoadFiles(t, files))
    ensures t.availableLangs <= LoadFiles(t, files).availableLangs
    decreases |files|
  {
    if files != [] {
      var prev := LoadFiles(t, files[..|files| - 1]);
      LoadFilesKeepsConsistent(t, files[..|files| - 1]);
      LoadFileKeepsConsistent(prev, files[|files| - 1]);
      assert prev.availableLangs[..|t.availableLangs|] == t.availableLangs;
      var next := LoadFile(prev, files[|files| - 1]);
      assert next.availableLangs[..|prev.availableLangs|] == prev.availableLangs;
      assert next.availableLangs[..|t.availableLangs|] == prev.availableLangs[..|t.availableLangs|];
    }
  }

  /** The languages named by the listed files that were read and parsed. */
  function ParsedLanguages(files: seq<TranslationFile>): set<string>
  {
    if files == [] then {}
    else
      var last := files[|files| - 1];
      ParsedLanguages(files[..|files| - 1]) + (if last.load.Parsed? then {LanguageOfFile(last.path)} else {})
  }

  /** Loading registers exactly the languages of the parsed files. */
  lemma {:induction false} RegisteredAreParsed(t: Tables, files: seq<TranslationFile>)
    ensures LoadFiles(t, files).localizers == t.localizers + ParsedLanguages(files)
    decreases |files|
  {
    if files != [] {
      RegisteredAreParsed(t, files[..|files| - 1]);
    }
  }

  /** Every parsed file gets its language registered. */
  lemma {:induction false} ParsedFileRegistered(files: seq<TranslationFile>, k: int)
    requires 0 <= k < |files| && files[k].load.Parsed?
    ensures LanguageOfFile(files[k].path) in ParsedLanguages(files)
    decreases |files|
  {
    if k < |files| - 1 {
      assert files[..|files| - 1][k] == files[k];
      ParsedFileRegistered(files[..|files| - 1], k);
    }
  }

  /** A registered language comes from some parsed file. */
  lemma {:induction false} RegisteredFileParsed(files: seq<TranslationFile>, lang: string)
    requires lang in ParsedLanguages(files)
    ensures exists k | 0 <= k < |files| :: files[k].load.Parsed? && LanguageOfFile(files[k].path) == lang
    decreases |files|
  {
    var init := files[..|files| - 1];
    if lang in ParsedLanguages(init) {
      RegisteredFileParsed(init, lang);
      var k :| 0 <= k < |init| && init[k].load.Parsed? && LanguageOfFile(init[k].path) == lang;
      assert files[k] == init[k];
    } else {
      assert files[|files| - 1].load.Parsed? && LanguageOfFile(files[|files| - 1].path) == lang;
    }
  }

  // ---------------------------------------------------------------------------
  // Lookup results

  /** What TWithParams and TWithCount hand back: a message template together
      with the data it is executed with, or the message id itself when no
      language has the message. */
  datatype TemplateInput = TemplateData(params: map<string, Gin.Value>) | PluralCount(count: int)

  datatype Rendering = Executed(template: string, input: TemplateInput) | Unresolved(msgID: string)

  function RenderingText(r: Rendering): string
  {
    match r
    case Executed(template, _) => template
    case Unresolved(msgID) => msgID
  }

  const ErrNotInitialized := "i18n bundle not initialized, call Init() first"
  const ErrListFiles := "failed to list translation files: "

  /** contains: a linear search of the list. */
  method SliceContains(slice: seq<string>, item: string) returns (found: bool)
    ensures found <==> item in slice
  {
    for i := 0 to |slice|
      invariant item !in slice[..i]
    {
      if slice[i] == item {
        return true;
      }
    }
    return false;
  }

  class Registry {
    /** The bundle exists: Init has been called. */
    var initialized: bool
    var defaultLanguage: string
    var localizers: set<string>
    var availableLangs: seq<string>
    var messages: map<string, map<string, string>>

    function CurrentTables(): Tables
      reads this
    {
      Tables(localizers, availableLangs, messages)
    }

    /** After Init, the default language has a localizer and heads the list;
        the list stays consistent with the localizers. Before Init everything
        is empty. */
    predicate Valid()
      reads this
    {
      Consistent(CurrentTables())
      && (initialized ==> |availableLangs| > 0 && availableLangs[0] == defaultLanguage)
      && (!initialized ==> localizers == {} && availableLangs == [] && messages == map[])
    }

    /** The package state before Init: no bundle and empty tables. */
    constructor ()
      ensures Valid() && !initialized
    {
      initialized := false;
      defaultLanguage := "";
      localizers := {};
      availableLangs := [];
      messages := map[];
    }

    /** Init: a fresh, empty bundle whose only language is the default one. */
    method Init(defLang: string)
      modifies this
      ensures Valid() && initialized
      ensures defaultLanguage == defLang
      ensures localizers == {defLang} && availableLangs == [defLang] && messages == map[]
    {
      initialized := true;
      defaultLanguage := defLang;
      localizers := {defLang};
      availableLangs := [defLang];
      messages := map[];
    }

    /** LoadDir: an error and no change before Init or when the directory
        cannot be listed; otherwise every listed file is loaded in turn. */
    method LoadDir(listing: Result<seq<TranslationFile>>) returns (err: Option<string>)
      requires Valid()
      modifies this
      ensures Valid()
      ensures initialized == old(initialized) && defaultLanguage == old(defaultLanguage)
      ensures !initialized ==> err == Some(ErrNotInitialized) && CurrentTables() == old(CurrentTables())
      ensures initialized && listing.Failure? ==>
                err == Some(ErrListFiles + listing.error) && CurrentTables() == old(CurrentTables())
      ensures initialized && listing.Success? ==>
                err == None && CurrentTables() == LoadFiles(old(CurrentTables()), listing.value)
    {
      if !initialized {
        return Some(ErrNotInitialized);
      }
      if listing.Failure? {
        return Some(ErrListFiles + listing.error);
      }
      var files := listing.value;
      ghost var start := CurrentTables();
      for i := 0 to |files|
        invariant CurrentTables() == LoadFiles(start, files[..i])
        invariant initialized && defaultLanguage == old(defaultLanguage)
      {
        assert files[..i + 1][..i] == files[..i];
        var file := files[i];
        var lang := LanguageOfFile(file.path);
        if !file.load.Parsed? {
          continue;
        }
        var existing := if lang in messages then messages[lang] else map[];
        messages := messages[lang := existing + file.load.messages];
        localizers := localizers + {lang};
        var known := SliceContains(availableLangs, lang);
        if !known {
          availableLangs := availableLangs + [lang];
        }
      }
      assert files[..|files|] == files;
      LoadFilesKeepsConsistent(start, files);
      assert availableLangs[..|start.availableLangs|] == start.availableLangs;
      return None;
    }

    /** GetAvailableLanguages: the list of available languages. Sequences are
        values, so what the caller receives is a copy by construction. */
    function GetAvailableLanguages(): (r: seq<string>)
      reads this
      ensures r == availableLangs
      ensures Valid() ==> NoDuplicates(r)
      ensures Valid() && initialized ==> |r| > 0 && r[0] == defaultLanguage
    {
      availableLangs
    }

    /** A localizer's lookup of a message in one language. */
    function Localize(lang: string, msgID: string): (r: Option<string>)
      reads this
      ensures r.Some? <==> lang in messages && msgID in messages[lang]
    {
      if lang in messages && msgID in messages[lang] then Some(messages[lang][msgID]) else None
    }

    /** T: the message in the requested language when it has a localizer and
        the message; otherwise the default language's message; otherwise the
        message id itself. */
    function T(lang: string, msgID: string): (r: string)
      requires initialized
      reads this
      ensures lang in localizers && Localize(lang, msgID).Some? ==> r == Localize(lang, msgID).value
      ensures (lang !in localizers || Localize(lang, msgID).None?) && Localize(defaultLanguage, msgID).Some? ==>
                r == Localize(defaultLanguage, msgID).value
      ensures (lang !in localizers || Localize(lang, msgID).None?) && Localize(defaultLanguage, msgID).None? ==>
                r == msgID
    {
      var localizer := if lang in localizers then lang else defaultLanguage;
      match Localize(localizer, msgID)
      case Some(msg) => msg
      case None =>
        if lang != defaultLanguage then
          match Localize(defaultLanguage, msgID)
          case Some(defMsg) => defMsg
          case None => msgID
        else msgID
    }

    /** TWithParams: the same selection as T, executed with the parameter map. */
    function TWithParams(lang: string, msgID: string, params: map<string, Gin.Value>): (r: Rendering)
      requires initialized
      reads this
      ensures RenderingText(r) == T(lang, msgID)
      ensures r.Executed? ==> r.input == TemplateData(params)
      ensures r.Unresolved? <==>
                (lang !in localizers || Localize(lang, msgID).None?) && Localize(defaultLanguage, msgID).None?
    {
      var localizer := if lang in localizers then lang else defaultLanguage;
      match Localize(localizer, msgID)
      case Some(msg) => Executed(msg, TemplateData(params))
      case None =>
        if lang != defaultLanguage then
          match Localize(defaultLanguage, msgID)
          case Some(defMsg) => Executed(defMsg, TemplateData(params))
          case None => Unresolved(msgID)
        else Unresolved(msgID)
    }

    /** TWithCount: the same selection as T, executed with the plural count. */
    function TWithCount(lang: string, msgID: string, count: int): (r: Rendering)
      requires initialized
      reads this
      ensures RenderingText(r) == T(lang, msgID)
      ensures r.Executed? ==> r.input == PluralCount(count)
      ensures r.Unresolved? <==>
                (lang !in localizers || Localize(lang, msgID).None?) && Localize(defaultLanguage, msgID).None?
    {
      var localizer := if lang in localizers then lang else defaultLanguage;
      match Localize(localizer, msgID)
      case Some(msg) => Executed(msg, PluralCount(count))
      case None =>
        if lang != defaultLanguage then
          match Localize(defaultLanguage, msgID)
          case Some(defMsg) => Executed(defMsg, PluralCount(count))
          case None => Unresolved(msgID)
        else Unresolved(msgID)
    }

    /** A language without a localizer is translated exactly like the default one. */
    lemma {:induction false} UnknownLanguageUsesDefault(lang: string, msgID: string)
      requires initialized && lang !in localizers
      ensures T(lang, msgID) == T(defaultLanguage, msgID)
    {
    }

    /** T returns the message id only when neither the requested language (if
        it has a localizer) nor the default language has the message. */
    lemma {:induction false} KeyReturnedOnlyWhenMissing(lang: string, msgID: string)
      requires initialized
      requires msgID !in (set l, m | l in messages && m in messages[l].Values :: m)
      ensures T(lang, msgID) == msgID <==>
                (lang !in localizers || Localize(lang, msgID).None?) && Localize(defaultLanguage, msgID).None?
    {
      if lang in localizers && Localize(lang, msgID).Some? {
        assert messages[lang][msgID] in messages[lang].Values;
      } else if Localize(defaultLanguage, msgID).Some? {
        assert messages[defaultLanguage][msgID] in messages[defaultLanguage].Values;
      }
    }
  }
}
