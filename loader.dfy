/**
 * `loadTranslations`: fetch a language's dictionary and fall back to the
 * default language once when that fails.
 */
module Loader {
  import opened Wrappers
  import opened Languages

  /**
   * The network, as an oracle: the outcome of `GET /assets/lang/<code>.json`,
   * `Some(dictionary)` when the response was ok and its body parsed, `None`
   * for a non-ok status or any transport or parse failure.
   */
  type Fetcher = string -> Option<Dict>

  /** The fallback chain has length at most one: only a non-default code falls back. */
  function Rank(lang: string): nat {
    if lang == Default then 0 else 1
  }

  /**
   * `loadTranslations(lang)`: the fetched dictionary on success; on failure
   * the result of loading the default language, or `{}` when `lang` is the
   * default. Whatever happens, the result is a dictionary the network served
   * for `lang` or for the default, or the empty one.
   */
  function LoadTranslations(fetch: Fetcher, lang: string): (trans: Dict)
    decreases Rank(lang)
    ensures trans == map[] || fetch(lang) == Some(trans) || fetch(Default) == Some(trans)
  {
    match fetch(lang)
    case Some(d) => d
    case None => if lang != Default then LoadTranslations(fetch, Default) else map[]
  }

  /** The codes requested from the network by one call of `LoadTranslations`, in order. */
  function Requests(fetch: Fetcher, lang: string): (codes: seq<string>)
    decreases Rank(lang)
    ensures |codes| >= 1 && codes[0] == lang
    ensures forall k :: 0 <= k < |codes| ==> codes[k] == lang || codes[k] == Default
  {
    if fetch(lang).None? && lang != Default then [lang] + Requests(fetch, Default) else [lang]
  }

  /**
   * The three outcomes of a load: success returns the fetched map, a failed
   * non-default code returns exactly what loading the default returns, and a
   * failed default returns the empty map.
   */
  lemma LoadFallback(fetch: Fetcher, lang: string)
    ensures fetch(lang).Some? ==> LoadTranslations(fetch, lang) == fetch(lang).value
    ensures fetch(lang).None? && lang != Default ==> LoadTranslations(fetch, lang) == LoadTranslations(fetch, Default)
    ensures fetch(Default).None? ==> LoadTranslations(fetch, Default) == map[]
    ensures fetch(lang).None? && fetch(Default).None? ==> LoadTranslations(fetch, lang) == map[]
  {
  }

  /**
   * Termination with at most two requests: the first is for `lang`, and a
   * second happens only after `lang` failed and is not the default, and is
   * for the default.
   */
  lemma AtMostTwoRequests(fetch: Fetcher, lang: string)
    ensures 1 <= |Requests(fetch, lang)| <= 2
    ensures Requests(fetch, lang)[0] == lang
    ensures |Requests(fetch, lang)| == 2 <==> fetch(lang).None? && lang != Default
    ensures |Requests(fetch, lang)| == 2 ==> Requests(fetch, lang)[1] == Default
  {
  }

  /**
   * The loaded dictionary is what the last request served, or `{}` when the
   * last request failed too; every earlier request failed.
   */
  lemma LoadIsLastRequest(fetch: Fetcher, lang: string)
    ensures var rs := Requests(fetch, lang);
            |rs| > 0 &&
            LoadTranslations(fetch, lang) == fetch(rs[|rs| - 1]).GetOr(map[]) &&
            forall k :: 0 <= k < |rs| - 1 ==> fetch(rs[k]).None?
  {
  }

  /** Example: "de" missing and "en" serving `{"hello": "Hello"}` gives that dictionary. */
  lemma FallbackExample(fetch: Fetcher)
    requires fetch("de") == None
    requires fetch("en") == Some(map["hello" := "Hello"])
    ensures LoadTranslations(fetch, "de") == map["hello" := "Hello"]
    ensures Requests(fetch, "de") == ["de", "en"]
  {
  }
}
