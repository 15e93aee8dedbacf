/**
 * Language resolution: `detectBrowserLang` and the choice of the active
 * language at the start of `initI18n`.
 */
module Resolver {
  import opened Wrappers
  import opened Languages

  /** Lower-casing of one character: the ASCII letters A-Z only. */
  function LowerChar(c: char): char {
    if 'A' <= c <= 'Z' then (c as int + 32) as char else c
  }

  /**
   * ASCII-only lower-casing, standing in for `toLowerCase` in the locale
   * test: every character folded on its own, length kept.
   */
  function ToLower(s: string): (r: string)
    ensures |r| == |s|
    ensures forall i :: 0 <= i < |s| ==> r[i] == LowerChar(s[i])
  {
    if s == [] then [] else [LowerChar(s[0])] + ToLower(s[1..])
  }

  /** `String.prototype.startsWith`. */
  predicate StartsWith(s: string, prefix: string)
    ensures StartsWith(s, prefix) <==>
              |prefix| <= |s| && forall i :: 0 <= i < |prefix| ==> s[i] == prefix[i]
  {
    |prefix| <= |s| && s[..|prefix|] == prefix
  }

  /**
   * `navigator.language || navigator.userLanguage || ''`: the first of the
   * two browser-reported locales that is truthy, else the empty string.
   */
  function NavigatorLocale(language: Option<string>, userLanguage: Option<string>): (nav: string)
    ensures Truthy(language) ==> nav == language.value
    ensures !Truthy(language) && Truthy(userLanguage) ==> nav == userLanguage.value
    ensures nav == "" <==> !Truthy(language) && !Truthy(userLanguage)
  {
    if Truthy(language) then language.value
    else if Truthy(userLanguage) then userLanguage.value
    else ""
  }

  /** A locale names German when it begins with "de" in any letter case. */
  predicate IsGermanLocale(nav: string) {
    |nav| >= 2 && (nav[0] == 'd' || nav[0] == 'D') && (nav[1] == 'e' || nav[1] == 'E')
  }

  /** Lower-casing and testing for the prefix "de" is the case-insensitive test. */
  lemma LowerStartsWithDe(nav: string)
    ensures StartsWith(ToLower(nav), "de") <==> IsGermanLocale(nav)
  {
  }

  /**
   * `detectBrowserLang`: an empty locale gives the default, a locale that
   * begins with "de" in any case gives "de", every other locale "en".
   */
  function DetectBrowserLang(language: Option<string>, userLanguage: Option<string>): (code: string)
    ensures IsSupported(code)
    ensures NavigatorLocale(language, userLanguage) == "" ==> code == Default
    ensures code == "de" <==> IsGermanLocale(NavigatorLocale(language, userLanguage))
  {
    var nav := NavigatorLocale(language, userLanguage);
    LowerStartsWithDe(nav);
    if nav == "" then Default
    else if StartsWith(ToLower(nav), "de") then "de"
    else "en"
  }

  /**
   * The active language chosen in `initI18n`: a truthy stored preference
   * that is supported wins; otherwise the detected language if it is
   * supported, else the default.
   */
  function ResolveLang(saved: Option<string>, detected: string): (code: string)
    ensures IsSupported(code)
    ensures Truthy(saved) && IsSupported(saved.value) ==> code == saved.value
    ensures !(Truthy(saved) && IsSupported(saved.value)) && IsSupported(detected) ==> code == detected
    ensures !(Truthy(saved) && IsSupported(saved.value)) && !IsSupported(detected) ==> code == Default
  {
    if Truthy(saved) && IsSupported(saved.value) then saved.value
    else if IsSupported(detected) then detected
    else Default
  }

  /** Stored preference, then browser locale: the language `initI18n` starts with. */
  function InitialLang(saved: Option<string>, language: Option<string>, userLanguage: Option<string>): (code: string)
    ensures IsSupported(code)
  {
    ResolveLang(saved, DetectBrowserLang(language, userLanguage))
  }

  /**
   * A supported stored preference decides the language whatever the browser
   * reports; without one, the browser locale decides it alone.
   */
  lemma StoredPreferenceWins(saved: Option<string>, language: Option<string>, userLanguage: Option<string>)
    ensures saved.Some? && IsSupported(saved.value) ==> InitialLang(saved, language, userLanguage) == saved.value
    ensures !(saved.Some? && IsSupported(saved.value)) ==>
              InitialLang(saved, language, userLanguage) == DetectBrowserLang(language, userLanguage)
    ensures !(saved.Some? && IsSupported(saved.value)) ==>
              (InitialLang(saved, language, userLanguage) == "de" <==> IsGermanLocale(NavigatorLocale(language, userLanguage)))
  {
  }

  /** Example: "de-DE" with nothing stored, and "fr" stored with "en-US". */
  lemma ResolutionExamples()
    ensures InitialLang(None, Some("de-DE"), None) == "de"
    ensures InitialLang(Some("fr"), Some("en-US"), None) == "en"
    ensures InitialLang(None, Some("DE"), None) == "de"
    ensures InitialLang(None, None, None) == "en"
  {
  }
}
