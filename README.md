# i18n bootstrap of a static site, in Dafny

This project models the client script `assets/js/main.js` of a static website.
The script finds the visitor's language and fetches that language's translation
dictionary. It rewrites every element marked with `data-i18n` and keeps the
`lang` attribute of the document in step. It also drives a small language
selector: a toggle button over a list of options.

The model, module by module:

- `Wrappers`: `Option`, which stands for JavaScript's `null`/`undefined`.
- `Languages`: the supported codes (`en`, `de`), the default `en`, the dictionary type and JavaScript truthiness of an optional string.
- `Resolver`: `detectBrowserLang` and the language choice at the top of `initI18n`, both as pure functions. `startsWith` is written out; `toLowerCase` is replaced by ASCII-only lower-casing.
- `Loader`: `loadTranslations` as a recursive function over a network oracle `Fetcher`. It falls back once, to the default language. `Requests` lists the requests the loader makes, so the lemmas can bound their number.
- `Dom`: `Element` records (the `data-i18n` key, whether the tag is TITLE, the text). It holds the functions that say what one pass of `applyTranslations` does to the elements and to the document title. This includes the case of several TITLE elements, where the last one with a value wins.
- `Site`: the class `Page` holds the state that the script changes in place:
  - the element array;
  - `document.title` and the html `lang` attribute;
  - the stored preference under `site-lang`;
  - the selector widget: whether the list is hidden, `aria-expanded`, the toggle's label and flag, the rebuilt option list and the registered listeners.

  `ApplyTranslations` is a loop over the array, proved against `Dom.TranslateAll` and `Dom.TitleAfter`. `PopulateSelector`, the three click handlers, the `Click` dispatcher and `Init` (`initI18n`) are methods on that state.

After the loader falls back to the `en` dictionary, the code still sets the html `lang` attribute to the requested code, and the toggle still shows that language; `Page.OptionClicked` and `Page.Init` state this.

## Model

| member | source | states |
|---|---|---|
| `Resolver.ToLower` | assets/js/main.js:7 | ASCII-only lower-casing keeps the length and folds every character on its own (A-Z only) |
| `Resolver.StartsWith` | assets/js/main.js:7 | `startsWith`: the prefix is no longer than the string and agrees with it character by character |
| `Resolver.NavigatorLocale` | assets/js/main.js:5 | `navigator.language` when truthy, else `navigator.userLanguage` when truthy, else the empty string; the result is empty exactly when neither is truthy |
| `Resolver.LowerStartsWithDe` | assets/js/main.js:7 | "lower-cased locale starts with `de`" holds exactly when the first two characters are d/D and e/E |
| `Resolver.DetectBrowserLang` | assets/js/main.js:4-9 | the detected code is always supported; an empty locale gives `en`; the result is `de` if and only if the locale starts with `de` in any case |
| `Resolver.ResolveLang` | assets/js/main.js:98 | the result is always supported; a truthy, supported stored value wins; otherwise the detected code if supported, else the default |
| `Resolver.InitialLang` | assets/js/main.js:96-98 | the language `initI18n` starts with is always `en` or `de` |
| `Resolver.StoredPreferenceWins` | assets/js/main.js:96-98 | a supported stored preference decides the language whatever the browser reports; without one, the result is the detected language, so it is `de` exactly for German locales |
| `Resolver.ResolutionExamples` | assets/js/main.js:4-9 | "de-DE" with nothing stored gives `de`, stored "fr" with "en-US" gives `en`, "DE" gives `de`, no locale at all gives `en` |
| `Loader.LoadTranslations` | assets/js/main.js:11-20 | the result is the empty dictionary or one the network served for the requested code or for the default |
| `Loader.Requests` | assets/js/main.js:13-17 | the `fetch` calls one load makes, in order: the first is for the requested code, and every one is for that code or for the default |
| `Loader.LoadFallback` | assets/js/main.js:16-19 | success returns the fetched map; failure for a non-default code returns exactly what loading `en` returns; failure for `en` returns `{}` |
| `Loader.AtMostTwoRequests` | assets/js/main.js:11-20 | a load makes one or two requests; the first is for the requested code; a second happens exactly when that failed and the code is not the default, and it is for the default |
| `Loader.LoadIsLastRequest` | assets/js/main.js:11-20 | the loaded dictionary is what the last request served, or `{}` if it failed; every earlier request failed |
| `Loader.FallbackExample` | assets/js/main.js:13-17 | with `de` missing and `en` serving `{"hello": "Hello"}`, loading `de` requests `de` then `en` and yields the `en` dictionary |
| `Dom.Lookup` | assets/js/main.js:24-25 | the lookup yields a value exactly when the element is marked and its key maps to a non-empty string, and then it yields that string |
| `Dom.TranslateElement` | assets/js/main.js:23-28 | key and tag never change; unmarked, missing-key, empty-value and TITLE elements keep their text; any other element takes its key's value |
| `Dom.TranslateAll` | assets/js/main.js:23-27 | the pass keeps the element count; an element that is not rewritten stays as it was, and a rewritten one takes its key's value as text and keeps its key and tag |
| `Dom.TitleAfter` | assets/js/main.js:23-26 | in document order, each TITLE element whose key has a non-empty value overwrites the title, so the result is the old title or one such value; `TitleAfterLast` says which |
| `Dom.TitleAfterLast` | assets/js/main.js:23-26 | the title ends up as the value of the last TITLE element whose key has a non-empty value; with no such element it is unchanged |
| `Dom.TitleAfterTranslated` | assets/js/main.js:25-27 | rewriting element texts does not change which title a later pass sets |
| `Dom.TitleAfterTwice` | assets/js/main.js:26 | a second pass over the same elements leaves the title where the first pass put it |
| `Dom.ApplyTwice` | assets/js/main.js:22-30 | applying the same dictionary twice gives the same elements and the same title as applying it once |
| `Dom.KeysUnchanged` | assets/js/main.js:23-24 | translation keeps the element count and every element's `data-i18n` key and tag |
| `Dom.TranslationExample` | assets/js/main.js:24-27 | `<span data-i18n="hello">Hi</span>` becomes "Hallo" under `{"hello": "Hallo"}`; a missing key or an empty value leaves it alone |
| `Site.OptionFor` | assets/js/main.js:42-45 | the selector has an entry exactly for the supported codes, and that entry carries the code |
| `Site.Page.constructor` | assets/js/main.js:37-40 | the page before the script runs: the given elements, title, `lang`, stored value and widget state, no options and no listeners |
| `Site.Page.SetHtmlLang` | assets/js/main.js:32-34 | the html `lang` attribute becomes the given code |
| `Site.Page.ApplyTranslations` | assets/js/main.js:22-30 | the new elements are `TranslateAll` of the old ones, and the new title is `TitleAfter` the old elements; nothing else changes |
| `Site.Page.PopulateSelector` | assets/js/main.js:36-93 | without a container nothing changes; otherwise the options become exactly en/English then de/Deutsch; the toggle shows `current`'s entry when there is one; one more toggle listener and the outside-click listener are registered |
| `Site.Page.ToggleClicked` | assets/js/main.js:80-84 | each registered listener flips `list.hidden`; afterwards `aria-expanded` is the negation of `list.hidden` |
| `Site.Page.DocumentClicked` | assets/js/main.js:87-92 | a click outside the container sets `list.hidden` and clears `aria-expanded`; a click inside changes nothing |
| `Site.Page.OptionClicked` | assets/js/main.js:60-70 | stores the code under `site-lang` and sets `lang` to it, even after a fallback; translates the page with the loader's result; shows the code's label and flag on the toggle; closes the list with `aria-expanded` false |
| `Site.Page.Click` | assets/js/main.js:60-92 | the target's listeners run, then the document-level listener, which ignores targets inside the container: a toggle click flips the list and leaves title, `lang`, stored value, label and flag alone; an option click stores, sets `lang`, translates the elements and title, relabels and closes; an outside click closes the list; any other click inside the container changes nothing |
| `Site.Page.Init` | assets/js/main.js:95-103 | the language is `InitialLang` of the stored value and the locale, always supported; `lang` is set to it; the page is translated with its loaded dictionary; the selector is built for it |
| `Site.ToggleTwice` | assets/js/main.js:80-84 | two toggle clicks restore `list.hidden`, with `aria-expanded` its negation |

## Left out

- The real `fetch`, its HTTP status check and JSON parsing (assets/js/main.js:13-15). They are the `Fetcher` oracle: `None` covers every failure.
- JSON content other than an object of strings is not modelled. A number, a boolean, `null` or a nested value in the dictionary is outside the `Dict` type.
- Keys inherited by a JavaScript object are not modelled. In the script, `trans['constructor']` is truthy even when the JSON has no such key. The model treats the dictionary as a plain map.
- `Resolver.ToLower` and `Resolver.LowerChar` fold only the ASCII letters A-Z. JavaScript's `toLowerCase` applies full Unicode case mapping, which can change the length (`'İ'` becomes two code units) and depends on context (final sigma). The only test on the folded string is the prefix `de`, and no non-ASCII character lower-cases to a string that begins with `d` or `e`, so the locale detection is unaffected.
- `localStorage` and `navigator` are plain values: the field `stored` and the parameters of `Init`. Storage that throws (for example when disabled) is not modelled.
- DOM construction (`createElement`, `img.src`, `className`, `alt`, `role`, clearing `innerHTML`) appears only as the abstract option list. The second parameter of `populateSelector` is unused in the code and dropped.
- A container without `.lang-toggle` or `.lang-options`, or a toggle without its `.flag` image or `.lang-label` child, makes the script throw (assets/js/main.js:40-47, 66-67, 76-77). During start-up `initI18n`'s `.catch` swallows the error. In an option click the throw comes after `setHtmlLang` and `applyTranslations`, so the list stays open and `aria-expanded` is untouched. The model assumes all four nodes exist whenever the container does, so `Page.OptionClicked` always closes the list.
- Setting `textContent` (assets/js/main.js:27) replaces all of an element's children. A marked element nested inside a rewritten one leaves the document: the same pass still visits it, but later passes do not. Non-text children such as icons are destroyed. The model keeps the elements as a flat sequence of records, each with its own text, so it does not capture this nesting.
- The widget's nodes (the `#lang-select` container, the toggle's `.lang-label` and `.flag`, the `li` options) are kept apart from the translatable elements. In a browser, `querySelectorAll('[data-i18n]')` (assets/js/main.js:23) would also match any of them that carries `data-i18n`. Then `applyTranslations` and the widget would write the same node: a marked `.lang-label` would first take its translation and then the option's label. A marked container would lose the toggle and the list when its text is rewritten. The model assumes no node inside `#lang-select` carries `data-i18n`, so the two never write the same node.
- In a browser, setting `document.title` also changes the text of the `<title>` element. The model keeps the title as its own field, and `ApplyTranslations` leaves TITLE elements' text alone.
- Listener registration on `DOMContentLoaded` and the swallowed `.catch` of `initI18n` are not modelled. `Init` is the part after the DOM is ready.
- Async interleaving is not modelled. An option click's handler runs as one atomic step, so two loads cannot race on the page.
- `Site.Page.Click`: a click on an option is only possible when that option exists, so the dispatcher requires `index < |options|`.
- The native `<select>` variant of the selector is not in assets/js/main.js, so it is not part of this model.
