/**
 * What `applyTranslations` does to the page, as functions on the sequence of
 * elements that carry a `data-i18n` attribute and on the document title.
 */
module Dom {
  import opened Wrappers
  import opened Languages

  /**
   * A DOM element: its `data-i18n` key (`None` when it carries no such
   * attribute), whether its tag is TITLE, and its text content.
   */
  datatype Element = Element(key: Option<string>, isTitle: bool, text: string)

  /**
   * `trans[key]` read as a condition: the value when the element is marked
   * and its key maps to a non-empty (truthy) string, otherwise nothing.
   */
  function Lookup(trans: Dict, key: Option<string>): (v: Option<string>)
    ensures v.Some? ==> key.Some? && key.value in trans && trans[key.value] == v.value && v.value != ""
    ensures key.Some? && key.value in trans && trans[key.value] != "" ==> v.Some?
  {
    if key.Some? && key.value in trans && trans[key.value] != "" then Some(trans[key.value]) else None
  }

  /** The element rewrites under `trans`: a non-title element whose key has a non-empty value. */
  predicate RewritesText(e: Element, trans: Dict) {
    !e.isTitle && Lookup(trans, e.key).Some?
  }

  /** The element sets the document title under `trans`: a TITLE element whose key has a non-empty value. */
  predicate SetsTitle(e: Element, trans: Dict) {
    e.isTitle && Lookup(trans, e.key).Some?
  }

  /**
   * One element after `applyTranslations(trans)`: its key and tag never
   * change; a TITLE element, an unmarked element and one whose key is
   * missing or maps to "" keep their text; every other element's text
   * becomes its key's value.
   */
  function TranslateElement(e: Element, trans: Dict): (r: Element)
    ensures r.key == e.key && r.isTitle == e.isTitle
    ensures !RewritesText(e, trans) ==> r == e
    ensures RewritesText(e, trans) ==> r.text == trans[e.key.value]
  {
    if RewritesText(e, trans) then e.(text := Lookup(trans, e.key).value) else e
  }

  /** Every element after `applyTranslations(trans)`. */
  function TranslateAll(s: seq<Element>, trans: Dict): (r: seq<Element>)
    ensures |r| == |s|
    ensures forall i :: 0 <= i < |s| && !RewritesText(s[i], trans) ==> r[i] == s[i]
    ensures forall i :: 0 <= i < |s| && RewritesText(s[i], trans) ==>
              r[i] == s[i].(text := trans[s[i].key.value])
  {
    seq(|s|, i requires 0 <= i < |s| => TranslateElement(s[i], trans))
  }

  /**
   * The document title after `applyTranslations(trans)` visits the elements
   * `s` in document order starting from `title`: each TITLE element with a
   * non-empty value overwrites it.
   */
  function TitleAfter(s: seq<Element>, title: string, trans: Dict): (r: string)
    ensures r == title || exists j :: 0 <= j < |s| && SetsTitle(s[j], trans) && r == trans[s[j].key.value]
  {
    if s == [] then title
    else
      var t := TitleAfter(s[..|s| - 1], title, trans);
      var e := s[|s| - 1];
      if SetsTitle(e, trans) then Lookup(trans, e.key).value else t
  }

  /**
   * The last TITLE element with a non-empty value decides the title; with no
   * such element the title is left as it was.
   */
  lemma {:induction false} TitleAfterLast(s: seq<Element>, title: string, trans: Dict)
    ensures (forall j :: 0 <= j < |s| ==> !SetsTitle(s[j], trans)) ==> TitleAfter(s, title, trans) == title
    ensures forall j :: 0 <= j < |s| && SetsTitle(s[j], trans) &&
                        (forall k :: j < k < |s| ==> !SetsTitle(s[k], trans)) ==>
                        TitleAfter(s, title, trans) == trans[s[j].key.value]
  {
    if s != [] {
      var init := s[..|s| - 1];
      TitleAfterLast(init, title, trans);
      assert forall j :: 0 <= j < |init| ==> init[j] == s[j];
    }
  }

  /** The title depends only on keys and tags, which translation keeps. */
  lemma {:induction false} TitleAfterTranslated(s: seq<Element>, title: string, trans: Dict)
    ensures TitleAfter(TranslateAll(s, trans), title, trans) == TitleAfter(s, title, trans)
  {
    if s != [] {
      var init := s[..|s| - 1];
      TitleAfterTranslated(init, title, trans);
      assert TranslateAll(s, trans)[..|s| - 1] == TranslateAll(init, trans);
    }
  }

  /** A second pass over the same elements leaves the title where the first pass put it. */
  lemma {:induction false} TitleAfterTwice(s: seq<Element>, title: string, trans: Dict)
    ensures TitleAfter(s, TitleAfter(s, title, trans), trans) == TitleAfter(s, title, trans)
  {
    if s != [] {
      TitleAfterTwice(s[..|s| - 1], title, trans);
    }
  }

  /**
   * Applying the same dictionary twice gives the same elements and the same
   * title as applying it once.
   */
  lemma ApplyTwice(s: seq<Element>, title: string, trans: Dict)
    ensures TranslateAll(TranslateAll(s, trans), trans) == TranslateAll(s, trans)
    ensures TitleAfter(TranslateAll(s, trans), TitleAfter(s, title, trans), trans) == TitleAfter(s, title, trans)
  {
    TitleAfterTranslated(s, TitleAfter(s, title, trans), trans);
    TitleAfterTwice(s, title, trans);
  }

  /** Translation keeps the element count and every element's key and tag. */
  lemma KeysUnchanged(s: seq<Element>, trans: Dict)
    ensures |TranslateAll(s, trans)| == |s|
    ensures forall i :: 0 <= i < |s| ==>
              TranslateAll(s, trans)[i].key == s[i].key && TranslateAll(s, trans)[i].isTitle == s[i].isTitle
  {
  }

  /** Example: `<span data-i18n="hello">Hi</span>` under `{"hello": "Hallo"}`. */
  lemma TranslationExample()
    ensures TranslateElement(Element(Some("hello"), false, "Hi"), map["hello" := "Hallo"]).text == "Hallo"
    ensures TranslateElement(Element(Some("bye"), false, "Bye"), map["hello" := "Hallo"]).text == "Bye"
    ensures TranslateElement(Element(Some("hello"), false, "Hi"), map["hello" := ""]).text == "Hi"
  {
  }
}
