/** The language hook of frontend/src/hooks/use_i18n.rs: the initial language
    (`get_default_language`) and the translation closure of `use_translation`. The
    browser is an input: `saved` is the "language" item of local storage, None when
    there is no window, no storage, no item or a storage error; `browser` is
    `navigator.languages`, one entry per element, None for an element that is not a
    string, and empty when there is no window. */
module UseI18n {
  import opened Prelude
  import opened Text
  import opened Common
  import I18n

  /** The closure returned by `use_translation`: a fixed title, a greeting in three
      languages, and every other key as it is. */
  function Translate(language: Language, key: string): (r: string)
    ensures key == "app.title" ==> r == "Kairos"
    ensures key == "app.welcome" && language == Spanish ==> r == "Bienvenido"
    ensures key == "app.welcome" && language == Portuguese ==> r == "Bem-vindo"
    ensures key == "app.welcome" && language != Spanish && language != Portuguese ==> r == "Welcome"
    ensures key != "app.title" && key != "app.welcome" ==> r == key
  {
    match key
    case "app.title" => "Kairos"
    case "app.welcome" =>
      (match language
       case Spanish => "Bienvenido"
       case English => "Welcome"
       case Portuguese => "Bem-vindo"
       case _ => "Welcome")
    case _ => key
  }

  /** The closure does not consult the catalogue: its title differs from the catalogue's
      in every language. */
  lemma TranslateIgnoresCatalogue(language: Language)
    ensures Translate(language, "app.title") != I18n.GetTranslation(language, "app.title")
  {
    I18n.AppTitles();
    var t := I18n.GetTranslation(language, "app.title");
    assert t == "Kairos - Trazabilidad Agrícola" || t == "Kairos - Rastreabilidade Agrícola" ||
           t == "Kairos - Agricultural Traceability";
    assert |t| > |"Kairos"|;
  }

  /** What one browser entry decides: the first of "es", "pt", "en" that its ASCII
      lower-cased form starts with. */
  function EntryLanguage(entry: string): (r: Option<Language>)
    ensures r.Some? <==> StartsWith(Lower(entry), "es") || StartsWith(Lower(entry), "pt") || StartsWith(Lower(entry), "en")
    ensures r.Some? ==> r.value == Spanish || r.value == Portuguese || r.value == English
    ensures StartsWith(Lower(entry), "es") ==> r == Some(Spanish)
    ensures !StartsWith(Lower(entry), "es") && StartsWith(Lower(entry), "pt") ==> r == Some(Portuguese)
    ensures !StartsWith(Lower(entry), "es") && !StartsWith(Lower(entry), "pt") && StartsWith(Lower(entry), "en") ==>
              r == Some(English)
  {
    var code := Lower(entry);
    if StartsWith(code, "es") then Some(Spanish)
    else if StartsWith(code, "pt") then Some(Portuguese)
    else if StartsWith(code, "en") then Some(English)
    else None
  }

  /** Whether a browser entry decides a language. */
  predicate Decides(entry: Option<string>) {
    entry.Some? && EntryLanguage(entry.value).Some?
  }

  /** Browser detection: the language of the first deciding entry. */
  function BrowserLanguage(browser: seq<Option<string>>): (r: Option<Language>)
    ensures r.Some? ==> r.value == Spanish || r.value == Portuguese || r.value == English
    decreases |browser|
  {
    if |browser| == 0 then None
    else if Decides(browser[0]) then EntryLanguage(browser[0].value)
    else BrowserLanguage(browser[1..])
  }

  /** `get_default_language`: the saved code when it parses, else browser detection,
      else `Language::default()`. */
  function DefaultLanguage(saved: Option<string>, browser: seq<Option<string>>): Language {
    if saved.Some? && FromStr(saved.value).Ok? then FromStr(saved.value).value
    else BrowserLanguage(browser).UnwrapOr(Default())
  }

  /** Browser detection decides by the first deciding entry, and by nothing after it. */
  lemma {:induction false} BrowserLanguageFirstMatch(browser: seq<Option<string>>)
    ensures BrowserLanguage(browser).None? <==> forall j :: 0 <= j < |browser| ==> !Decides(browser[j])
    ensures forall i :: 0 <= i < |browser| && Decides(browser[i]) && (forall j :: 0 <= j < i ==> !Decides(browser[j])) ==>
              BrowserLanguage(browser) == EntryLanguage(browser[i].value)
    decreases |browser|
  {
    if |browser| > 0 {
      BrowserLanguageFirstMatch(browser[1..]);
      assert forall j :: 1 <= j < |browser| ==> browser[j] == browser[1..][j - 1];
      if !Decides(browser[0]) {
        forall i | 0 < i < |browser| && Decides(browser[i]) && (forall j :: 0 <= j < i ==> !Decides(browser[j]))
          ensures BrowserLanguage(browser) == EntryLanguage(browser[i].value)
        {
          assert browser[1..][i - 1] == browser[i];
          assert forall j :: 0 <= j < i - 1 ==> !Decides(browser[1..][j]) by {
            forall j | 0 <= j < i - 1 ensures !Decides(browser[1..][j]) {
              assert browser[1..][j] == browser[j + 1];
            }
          }
        }
      }
    }
  }

  /** `get_default_language`, as the source writes it: a scan of the browser entries with
      early returns. */
  method GetDefaultLanguage(saved: Option<string>, browser: seq<Option<string>>) returns (l: Language)
    ensures l == DefaultLanguage(saved, browser)
  {
    if saved.Some? {
      var parsed := FromStr(saved.value);
      if parsed.Ok? {
        return parsed.value;
      }
    }
    BrowserLanguageFirstMatch(browser);
    var i := 0;
    while i < |browser|
      invariant 0 <= i <= |browser|
      invariant forall j :: 0 <= j < i ==> !Decides(browser[j])
    {
      if browser[i].Some? {
        var code := Lower(browser[i].value);
        if StartsWith(code, "es") { return Spanish; }
        if StartsWith(code, "pt") { return Portuguese; }
        if StartsWith(code, "en") { return English; }
      }
      i := i + 1;
    }
    l := Default();
  }

  /** A saved code `from_str` accepts wins over whatever the browser reports. */
  lemma SavedTakesPrecedence(s: string, browser: seq<Option<string>>)
    requires FromStr(s).Ok?
    ensures DefaultLanguage(Some(s), browser) == FromStr(s).value
    ensures ToStr(DefaultLanguage(Some(s), browser)) == s
  {
  }

  /** A saved value `from_str` rejects is as good as none. */
  lemma UnparsableSavedFallsThrough(s: string, browser: seq<Option<string>>)
    requires FromStr(s).Err?
    ensures DefaultLanguage(Some(s), browser) == DefaultLanguage(None, browser)
  {
  }

  /** Without a saved code the result is Spanish, Portuguese or English, and Spanish
      when no browser entry decides. */
  lemma BrowserDetectionRange(browser: seq<Option<string>>)
    ensures var l := DefaultLanguage(None, browser);
            l == Spanish || l == Portuguese || l == English
    ensures (forall j :: 0 <= j < |browser| ==> !Decides(browser[j])) ==> DefaultLanguage(None, browser) == Spanish
  {
    BrowserLanguageFirstMatch(browser);
  }

  /** The value the hook's effect stores (`to_str`) is read back as the same language. */
  lemma StoredLanguageReadBack(l: Language, browser: seq<Option<string>>)
    ensures DefaultLanguage(Some(ToStr(l)), browser) == l
  {
    FromStrOfToStr(l);
  }

  /** Prefix matching is on the lower-cased entry, and a region tag does not matter:
      "ES-ar" is Spanish, "PT" Portuguese, while "fr-FR" decides nothing. */
  lemma EntryExamples()
    ensures EntryLanguage("ES-ar") == Some(Spanish)
    ensures EntryLanguage("PT") == Some(Portuguese)
    ensures EntryLanguage("fr-FR").None?
  {
    assert Lower("ES-ar")[..2] == "es";
    assert Lower("PT")[..2] == "pt";
    assert Lower("fr-FR")[..2] == "fr";
  }
}
