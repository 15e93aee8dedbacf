/**
 * The page as the i18n script sees it: the translatable elements, the
 * document title and `lang` attribute, the stored preference, and the
 * `#lang-select` widget with its click handlers; `initI18n` ties them
 * together.
 */
module Site {
  import opened Wrappers
  import opened Languages
  import opened Resolver
  import opened Loader
  import opened Dom

  /** One entry of the selector: a language code, its label and its flag icon. */
  datatype LangOption = LangOption(code: string, name: string, flag: string)

  /** `opts` in `populateSelector`, in the order `Object.keys` yields its keys. */
  const SelectorOptions: seq<LangOption> := [
    LangOption("en", "English", "/assets/img/flags/gb.svg"),
    LangOption("de", "Deutsch", "/assets/img/flags/de.svg")
  ]

  /** `opts[code]`: the entry for `code`, if the selector has one. */
  function OptionFor(code: string): (o: Option<LangOption>)
    ensures o.Some? <==> IsSupported(code)
    ensures o.Some? ==> o.value in SelectorOptions && o.value.code == code
  {
    if code == "en" then Some(SelectorOptions[0])
    else if code == "de" then Some(SelectorOptions[1])
    else None
  }

  /** Where a click lands, for the widget's listeners. */
  datatype Target =
    | ToggleButton          // the `.lang-toggle` button
    | OptionItem(index: nat) // the `index`-th `li` of the `.lang-options` list
    | InsideContainer       // any other node inside `#lang-select`
    | Outside               // any node outside `#lang-select`

  class Page {
    /** The elements that carry a `data-i18n` attribute, in document order, and the others. */
    const elements: array<Element>
    /** `document.title`. */
    var title: string
    /** `document.documentElement.lang`. */
    var htmlLang: string
    /** `localStorage.getItem('site-lang')`. */
    var stored: Option<string>

    /** Whether the page has a `#lang-select` container. */
    const hasContainer: bool
    /** `list.hidden` of the `.lang-options` list. */
    var listHidden: bool
    /** The toggle's `aria-expanded` attribute. */
    var ariaExpanded: bool
    /** Text of the toggle's `.lang-label`. */
    var toggleLabel: string
    /** `src` of the toggle's `.flag` image. */
    var toggleFlag: string
    /** The `li` options of the list, each with its click listener. */
    var options: seq<LangOption>
    /** How many click listeners the toggle carries (one per `populateSelector` call). */
    var toggleListeners: nat
    /** Whether the document-level outside-click listener is registered. */
    var closesOnOutsideClick: bool

    /** The widget's listeners and options exist only inside a container, and the list is empty or rebuilt. */
    ghost predicate Valid()
      reads this
    {
      ((toggleListeners > 0 || closesOnOutsideClick || options != []) ==> hasContainer) &&
      (options == [] || options == SelectorOptions)
    }

    /** The page as its markup defines it, before the script runs. */
    constructor (elems: seq<Element>, title: string, htmlLang: string, stored: Option<string>,
                 hasContainer: bool, listHidden: bool, ariaExpanded: bool,
                 toggleLabel: string, toggleFlag: string)
      ensures Valid() && fresh(elements)
      ensures elements[..] == elems && this.title == title && this.htmlLang == htmlLang
      ensures this.stored == stored && this.hasContainer == hasContainer
      ensures this.listHidden == listHidden && this.ariaExpanded == ariaExpanded
      ensures this.toggleLabel == toggleLabel && this.toggleFlag == toggleFlag
      ensures options == [] && toggleListeners == 0 && !closesOnOutsideClick
    {
      elements := new Element[|elems|](i requires 0 <= i < |elems| => elems[i]);
      this.title, this.htmlLang, this.stored := title, htmlLang, stored;
      this.hasContainer := hasContainer;
      this.listHidden, this.ariaExpanded := listHidden, ariaExpanded;
      this.toggleLabel, this.toggleFlag := toggleLabel, toggleFlag;
      options, toggleListeners, closesOnOutsideClick := [], 0, false;
    }

    /** `setHtmlLang`. */
    method SetHtmlLang(lang: string)
      modifies this`htmlLang
      ensures htmlLang == lang
    {
      htmlLang := lang;
    }

    /**
     * `applyTranslations`: every element is rewritten as `TranslateElement`
     * says and the title is set by the last TITLE element with a non-empty
     * value; nothing else changes.
     */
    method ApplyTranslations(trans: Dict)
      modifies elements, this`title
      ensures elements[..] == TranslateAll(old(elements[..]), trans)
      ensures title == TitleAfter(old(elements[..]), old(title), trans)
    {
      var i := 0;
      while i < elements.Length
        invariant 0 <= i <= elements.Length
        invariant elements[..i] == TranslateAll(old(elements[..i]), trans)
        invariant forall j :: i <= j < elements.Length ==> elements[j] == old(elements[j])
        invariant title == TitleAfter(old(elements[..i]), old(title), trans)
      {
        var el := elements[i];
        var value := Lookup(trans, el.key);
        if value.Some? {
          if el.isTitle {
            title := value.value;
          } else {
            elements[i] := el.(text := value.value);
          }
        }
        assert old(elements[..i + 1])[..i] == old(elements[..i]);
        i := i + 1;
      }
      assert elements[..] == elements[..i];
      assert old(elements[..]) == old(elements[..i]);
    }

    /**
     * `populateSelector(current, translations)`: without a container nothing
     * happens; otherwise the option list is rebuilt with one entry per
     * language, the toggle shows `current` when the selector knows it, and
     * one more toggle listener and the outside-click listener are registered.
     */
    method PopulateSelector(current: string)
      requires Valid()
      modifies this
      ensures Valid()
      ensures !hasContainer ==> unchanged(this)
      ensures hasContainer ==> options == SelectorOptions
      ensures hasContainer ==> toggleListeners == old(toggleListeners) + 1 && closesOnOutsideClick
      ensures hasContainer && OptionFor(current).Some? ==>
                toggleLabel == OptionFor(current).value.name && toggleFlag == OptionFor(current).value.flag
      ensures OptionFor(current).None? ==> toggleLabel == old(toggleLabel) && toggleFlag == old(toggleFlag)
      ensures listHidden == old(listHidden) && ariaExpanded == old(ariaExpanded)
      ensures title == old(title) && htmlLang == old(htmlLang) && stored == old(stored)
    {
      if !hasContainer {
        return;
      }
      options := [];
      for i := 0 to |SelectorOptions|
        invariant options == SelectorOptions[..i]
        modifies this`options
      {
        options := options + [SelectorOptions[i]];
      }
      var entry := OptionFor(current);
      if entry.Some? {
        toggleFlag := entry.value.flag;
        toggleLabel := entry.value.name;
      }
      toggleListeners := toggleListeners + 1;
      closesOnOutsideClick := true;
    }

    /**
     * A click on the toggle runs each of its listeners in turn; each one
     * flips `list.hidden` and sets `aria-expanded` to whether the list was
     * hidden before it ran, so afterwards `aria-expanded` is the negation of
     * `list.hidden`.
     */
    method ToggleClicked()
      modifies this`listHidden, this`ariaExpanded
      ensures listHidden == if toggleListeners % 2 == 1 then !old(listHidden) else old(listHidden)
      ensures toggleListeners > 0 ==> ariaExpanded == !listHidden
      ensures toggleListeners == 0 ==> ariaExpanded == old(ariaExpanded)
    {
      var k := 0;
      while k < toggleListeners
        invariant 0 <= k <= toggleListeners
        invariant listHidden == if k % 2 == 1 then !old(listHidden) else old(listHidden)
        invariant k > 0 ==> ariaExpanded == !listHidden
        invariant k == 0 ==> ariaExpanded == old(ariaExpanded)
      {
        var open := listHidden;
        listHidden := !open;
        ariaExpanded := open;
        k := k + 1;
      }
    }

    /** The document-level listener: a click outside the container closes the list. */
    method DocumentClicked(targetInContainer: bool)
      modifies this`listHidden, this`ariaExpanded
      ensures closesOnOutsideClick && !targetInContainer ==> listHidden && !ariaExpanded
      ensures !(closesOnOutsideClick && !targetInContainer) ==>
                listHidden == old(listHidden) && ariaExpanded == old(ariaExpanded)
    {
      if closesOnOutsideClick && !targetInContainer {
        listHidden := true;
        ariaExpanded := false;
      }
    }

    /**
     * The listener of the `index`-th option: the code is stored under
     * `site-lang`, its dictionary loaded (with the loader's fallback), the
     * `lang` attribute set to the code itself even when the default's
     * dictionary was served instead, the page translated, the toggle
     * relabelled and the list closed.
     */
    method OptionClicked(index: nat, fetch: Fetcher)
      requires Valid() && index < |options|
      modifies this, elements
      ensures Valid()
      ensures var code := SelectorOptions[index].code;
              IsSupported(code) && stored == Some(code) && htmlLang == code &&
              elements[..] == TranslateAll(old(elements[..]), LoadTranslations(fetch, code)) &&
              title == TitleAfter(old(elements[..]), old(title), LoadTranslations(fetch, code)) &&
              Some(LangOption(code, toggleLabel, toggleFlag)) == OptionFor(code)
      ensures listHidden && !ariaExpanded
      ensures options == old(options) && toggleListeners == old(toggleListeners)
      ensures closesOnOutsideClick == old(closesOnOutsideClick)
    {
      var entry := options[index];
      stored := Some(entry.code);
      var tr := LoadTranslations(fetch, entry.code);
      SetHtmlLang(entry.code);
      ApplyTranslations(tr);
      toggleFlag := entry.flag;
      toggleLabel := entry.name;
      listHidden := true;
      ariaExpanded := false;
    }

    /**
     * A click on `target`: the target's own listeners run, then the event
     * bubbles to the document-level listener, which ignores every target
     * inside the container.
     */
    method Click(target: Target, fetch: Fetcher)
      requires Valid()
      requires target.OptionItem? ==> target.index < |options|
      modifies this, elements
      ensures Valid()
      ensures target.ToggleButton? ==>
                listHidden == (if toggleListeners % 2 == 1 then !old(listHidden) else old(listHidden)) &&
                (toggleListeners > 0 ==> ariaExpanded == !listHidden)
      ensures target.ToggleButton? && toggleListeners == 0 ==> ariaExpanded == old(ariaExpanded)
      ensures !target.OptionItem? ==>
                title == old(title) && htmlLang == old(htmlLang) && stored == old(stored) &&
                toggleLabel == old(toggleLabel) && toggleFlag == old(toggleFlag)
      ensures target.OptionItem? ==>
                var code := SelectorOptions[target.index].code;
                stored == Some(code) && htmlLang == code &&
                elements[..] == TranslateAll(old(elements[..]), LoadTranslations(fetch, code)) &&
                title == TitleAfter(old(elements[..]), old(title), LoadTranslations(fetch, code)) &&
                Some(LangOption(code, toggleLabel, toggleFlag)) == OptionFor(code) &&
                listHidden && !ariaExpanded
      ensures target.Outside? && closesOnOutsideClick ==> listHidden && !ariaExpanded
      ensures (target.Outside? && !closesOnOutsideClick) || target.InsideContainer? ==> unchanged(this)
      ensures !target.OptionItem? ==> unchanged(elements)
      ensures options == old(options) && toggleListeners == old(toggleListeners)
      ensures closesOnOutsideClick == old(closesOnOutsideClick)
    {
      match target {
        case ToggleButton => ToggleClicked();
        case OptionItem(i) => OptionClicked(i, fetch);
        case InsideContainer =>
        case Outside =>
      }
      DocumentClicked(!target.Outside?);
    }

    /**
     * `initI18n`: resolve the language from the stored preference and the
     * browser locale, load its dictionary, set the `lang` attribute,
     * translate the page and build the selector for that language.
     */
    method Init(fetch: Fetcher, language: Option<string>, userLanguage: Option<string>) returns (lang: string)
      requires Valid()
      modifies this, elements
      ensures Valid()
      ensures lang == InitialLang(old(stored), language, userLanguage) && IsSupported(lang)
      ensures htmlLang == lang && stored == old(stored)
      ensures elements[..] == TranslateAll(old(elements[..]), LoadTranslations(fetch, lang))
      ensures title == TitleAfter(old(elements[..]), old(title), LoadTranslations(fetch, lang))
      ensures hasContainer ==> options == SelectorOptions && closesOnOutsideClick &&
                               toggleListeners == old(toggleListeners) + 1 &&
                               Some(LangOption(lang, toggleLabel, toggleFlag)) == OptionFor(lang)
      ensures !hasContainer ==> options == old(options) && toggleListeners == old(toggleListeners)
      ensures !hasContainer ==> toggleLabel == old(toggleLabel) && toggleFlag == old(toggleFlag) &&
                                closesOnOutsideClick == old(closesOnOutsideClick)
      ensures listHidden == old(listHidden) && ariaExpanded == old(ariaExpanded)
    {
      var saved := stored;
      var detected := DetectBrowserLang(language, userLanguage);
      lang := ResolveLang(saved, detected);
      var tr := LoadTranslations(fetch, lang);
      SetHtmlLang(lang);
      ApplyTranslations(tr);
      PopulateSelector(lang);
    }
  }

  /** Two clicks on a toggle restore whether the list is hidden. */
  method ToggleTwice(page: Page)
    modifies page
    ensures page.listHidden == old(page.listHidden)
    ensures page.toggleListeners > 0 ==> page.ariaExpanded == !page.listHidden
  {
    page.ToggleClicked();
    page.ToggleClicked();
  }

  /**
   * Example: on a page with the selector, after `initI18n` a click on the
   * toggle opens the closed list, a click outside closes it, and a click on
   * the first option switches to English.
   */
  method WidgetExample(fetch: Fetcher)
  {
    var page := new Page([], "Site", "", None, true, true, false, "", "");
    var lang := page.Init(fetch, Some("de-DE"), None);
    assert IsGermanLocale("de-DE");
    assert lang == "de" && page.htmlLang == "de" && page.toggleLabel == "Deutsch";
    page.Click(ToggleButton, fetch);
    assert !page.listHidden && page.ariaExpanded;
    assert page.stored == None && page.htmlLang == "de" && page.toggleLabel == "Deutsch";
    page.Click(Outside, fetch);
    assert page.listHidden && !page.ariaExpanded;
    page.Click(OptionItem(0), fetch);
    assert page.stored == Some("en") && page.htmlLang == "en" && page.toggleLabel == "English";
  }
}
