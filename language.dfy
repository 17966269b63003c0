/** The translator of js/language.js: locale resolution, the per-language
    catalog cache with its fallback ladder, the total `translate` lookup, the
    rewrite of tagged elements, the initial-language choice and the
    more-info toggle.

    The browser is abstracted: `fetch` + `response.json()` is an oracle from
    a language code to an optional catalog, `localStorage` is the field
    `preferred`, `navigator.language` is an optional string, and the DOM is
    the sequences `buttons` and `elements` plus a few text fields. */
module Language {
  import opened Wrappers

  /** A loaded language file: translation key to text. */
  type Catalog = map<string, string>

  /** `supportedLanguages` (language.js:12). */
  const Supported: seq<string> := ["en", "it"]

  /** JavaScript truthiness of `catalog[key]`: a missing key and an empty
      string both count as "no translation". */
  predicate HasText(cat: Catalog, key: string) {
    key in cat && cat[key] != ""
  }

  /** The validation at the head of `setLanguage`: an unsupported code is
      replaced by English. */
  function Resolve(code: string): (lang: string)
    ensures lang in Supported
    ensures lang == code <==> code in Supported
    ensures code !in Supported ==> lang == "en"
  {
    if code in Supported then code else "en"
  }

  /** `translate(key)`: the current catalog's text, else English's, else the
      key itself. */
  function Lookup(catalogs: map<string, Catalog>, current: string, key: string): (r: string)
    ensures current in catalogs && HasText(catalogs[current], key) ==> r == catalogs[current][key]
    ensures (!(current in catalogs && HasText(catalogs[current], key)) && "en" in catalogs && HasText(catalogs["en"], key))
              ==> r == catalogs["en"][key]
    ensures r == key
         || (current in catalogs && HasText(catalogs[current], key) && r == catalogs[current][key])
         || ("en" in catalogs && HasText(catalogs["en"], key) && r == catalogs["en"][key])
    ensures r == key <== !(current in catalogs && HasText(catalogs[current], key))
                      && !("en" in catalogs && HasText(catalogs["en"], key))
    ensures key != "" ==> r != ""
  {
    if current in catalogs && HasText(catalogs[current], key) then
      catalogs[current][key]
    else if "en" in catalogs && HasText(catalogs["en"], key) then
      catalogs["en"][key]
    else
      key
  }

  /** An element carrying `data-i18n="key"` and its current text. */
  datatype Element = Element(key: string, text: string)

  /** A language button carrying `data-lang`, and whether it has class `active`. */
  datatype LangButton = LangButton(lang: string, active: bool)

  /** One step of the `forEach` in `updateTranslations`. */
  function Rewrite(e: Element, cat: Catalog): Element {
    if HasText(cat, e.key) then e.(text := cat[e.key]) else e
  }

  /** The tagged elements after `updateTranslations` with catalog `cat`:
      an element whose key has a non-empty text takes it, every other element
      keeps its text (nothing is blanked). */
  function Translated(els: seq<Element>, cat: Catalog): (r: seq<Element>)
    ensures |r| == |els|
    ensures forall i :: 0 <= i < |els| ==> r[i].key == els[i].key
    ensures forall i :: 0 <= i < |els| && HasText(cat, els[i].key) ==> r[i].text == cat[els[i].key]
    ensures forall i :: 0 <= i < |els| && !HasText(cat, els[i].key) ==> r[i] == els[i]
  {
    seq(|els|, i requires 0 <= i < |els| => Rewrite(els[i], cat))
  }

  /** The buttons after the `forEach` in `setLanguage`: exactly the buttons
      whose `data-lang` is `lang` are active. */
  function MarkButtons(bs: seq<LangButton>, lang: string): (r: seq<LangButton>)
    ensures |r| == |bs|
    ensures forall i :: 0 <= i < |bs| ==> r[i].lang == bs[i].lang
    ensures forall i :: 0 <= i < |bs| ==> (r[i].active <==> bs[i].lang == lang)
  {
    seq(|bs|, i requires 0 <= i < |bs| => LangButton(bs[i].lang, bs[i].lang == lang))
  }

  /** The more-info caption `updateTranslations` writes, with the literal
      defaults used when the current catalog has no text. */
  function MoreInfoCaption(cat: Catalog, expanded: bool): (caption: string)
    ensures caption != ""
    ensures expanded && !HasText(cat, "show-less") ==> caption == "SHOW LESS INFO"
    ensures !expanded && !HasText(cat, "show-more") ==> caption == "SHOW MORE INFO"
    ensures HasText(cat, MoreInfoKey(expanded)) ==> caption == cat[MoreInfoKey(expanded)]
  {
    if expanded then
      (if HasText(cat, "show-less") then cat["show-less"] else "SHOW LESS INFO")
    else
      (if HasText(cat, "show-more") then cat["show-more"] else "SHOW MORE INFO")
  }

  /** The key of the caption matching the panel state. */
  function MoreInfoKey(expanded: bool): string {
    if expanded then "show-less" else "show-more"
  }

  /** Everything the translator reads or writes: its own fields, the stored
      preference, the `<html lang>` attribute and the DOM it rewrites. */
  datatype Page = Page(
    current: string,
    catalogs: map<string, Catalog>,
    preferred: Option<string>,
    htmlLang: string,
    buttons: seq<LangButton>,
    elements: seq<Element>,
    title: string,
    expanded: bool,
    caption: string)

  /** The translator's own invariant: one supported language is active and
      only supported languages are cached. */
  ghost predicate WellFormed(p: Page) {
    p.current in Supported && forall l :: l in p.catalogs ==> l in Supported
  }

  /** `updateTranslations`: nothing happens without a catalog for the current
      language; otherwise tagged elements, the more-info caption and the page
      title are rewritten. */
  function Render(p: Page): (r: Page)
    ensures r.current == p.current && r.catalogs == p.catalogs && r.buttons == p.buttons
    ensures r.preferred == p.preferred && r.htmlLang == p.htmlLang && r.expanded == p.expanded
    ensures p.current in p.catalogs ==> r.elements == Translated(p.elements, p.catalogs[p.current])
    ensures p.current in p.catalogs ==> r.caption == MoreInfoCaption(p.catalogs[p.current], p.expanded)
    ensures p.current !in p.catalogs ==> r == p
    ensures p.current in p.catalogs && HasText(p.catalogs[p.current], "page-title") ==>
      r.title == p.catalogs[p.current]["page-title"]
    ensures !(p.current in p.catalogs && HasText(p.catalogs[p.current], "page-title")) ==> r.title == p.title
  {
    if p.current !in p.catalogs then p
    else
      var cat := p.catalogs[p.current];
      p.(elements := Translated(p.elements, cat),
         caption := MoreInfoCaption(cat, p.expanded),
         title := if HasText(cat, "page-title") then cat["page-title"] else p.title)
  }

  /** The success path of `setLanguage` (language.js:116-125). */
  function Commit(p: Page, lang: string): Page {
    Render(p.(current := lang)).(preferred := Some(lang), htmlLang := lang)
  }

  /** The page after `setLanguage(requested)` with network oracle `fetch`. */
  function AfterSetLanguage(p: Page, requested: string, fetch: string -> Option<Catalog>): (r: Page)
    ensures r.current == Resolve(requested) || r.current == "en" || r.current == p.current
    ensures r.preferred == p.preferred || r.preferred == Some(r.current)
    ensures r.htmlLang == p.htmlLang || r.htmlLang == r.current
    ensures |r.buttons| == |p.buttons| && |r.elements| == |p.elements| && r.expanded == p.expanded
    ensures p.catalogs.Keys <= r.catalogs.Keys
    decreases if Resolve(requested) == "en" then 0 else 1
  {
    var lang := Resolve(requested);
    var q := p.(buttons := MarkButtons(p.buttons, lang));
    if lang in q.catalogs then Commit(q, lang)
    else match fetch(lang)
      case Some(cat) => Commit(q.(catalogs := q.catalogs[lang := cat]), lang)
      case None =>
        if lang != "en" && "en" in q.catalogs then Render(q.(current := "en"))
        else if lang != "en" then AfterSetLanguage(q, "en", fetch)
        else q
  }

  /** The languages `setLanguage(requested)` asks the network for, in order. */
  function Fetches(p: Page, requested: string, fetch: string -> Option<Catalog>): (f: seq<string>)
    ensures |f| <= 2
    ensures f != [] ==> f[0] == Resolve(requested)
    decreases if Resolve(requested) == "en" then 0 else 1
  {
    var lang := Resolve(requested);
    if lang in p.catalogs then []
    else if fetch(lang).Some? then [lang]
    else if lang != "en" && "en" !in p.catalogs then [lang] + Fetches(p, "en", fetch)
    else [lang]
  }

  /** Which code the page's startup hands to `setLanguage`: the saved
      preference if it is supported, else the primary subtag of the browser
      language if that is supported, else English. */
  function InitialChoice(saved: Option<string>, browser: Option<string>): (r: string)
    ensures r in Supported
    ensures saved.Some? && saved.value in Supported ==> r == saved.value
    ensures (!(saved.Some? && saved.value in Supported) && browser.Some?
             && PrimarySubtag(browser.value) in Supported) ==> r == PrimarySubtag(browser.value)
    ensures (!(saved.Some? && saved.value in Supported)
             && !(browser.Some? && PrimarySubtag(browser.value) in Supported)) ==> r == "en"
    ensures (saved.Some? && r == saved.value) || (browser.Some? && r == PrimarySubtag(browser.value)) || r == "en"
  {
    if saved.Some? && saved.value != "" && saved.value in Supported then saved.value
    else BrowserChoice(browser)
  }

  /** `detectBrowserLanguage`: `None` is a missing `navigator.language`,
      whose `split` throws and lands in the `catch`. */
  function BrowserChoice(browser: Option<string>): (r: string)
    ensures r in Supported
    ensures browser.None? ==> r == "en"
    ensures browser.Some? ==> r == Resolve(PrimarySubtag(browser.value))
  {
    match browser
    case None => "en"
    case Some(b) =>
      var sub := PrimarySubtag(b);
      if sub in Supported then sub else "en"
  }

  /** `s.split('-')[0]`: the part of `s` before its first hyphen. */
  function PrimarySubtag(s: string): (r: string)
    ensures r <= s
    ensures '-' !in r
    ensures r == s || s[|r|] == '-'
  {
    if s == [] || s[0] == '-' then [] else [s[0]] + PrimarySubtag(s[1..])
  }

  /** The primary subtag is the only hyphen-free prefix that ends at a hyphen
      or at the end of the string. */
  lemma {:induction false} PrimarySubtagUnique(s: string, t: string)
    requires t <= s && '-' !in t
    requires t == s || s[|t|] == '-'
    ensures PrimarySubtag(s) == t
  {
    if t != [] {
      assert s[0] == t[0];
      PrimarySubtagUnique(s[1..], t[1..]);
    }
  }

  /** A regional browser locale selects its language when nothing is saved. */
  lemma RegionalBrowserLocale()
    ensures InitialChoice(None, Some("it-IT")) == "it"
    ensures InitialChoice(Some("fr"), Some("it-CH")) == "it"
    ensures InitialChoice(Some("it"), Some("en-US")) == "it"
    ensures InitialChoice(None, Some("de-DE")) == "en"
  {
    PrimarySubtagUnique("it-IT", "it");
    PrimarySubtagUnique("it-CH", "it");
    PrimarySubtagUnique("de-DE", "de");
  }

  /** `setLanguage` keeps the translator's invariant: whatever code is
      requested and whatever the network answers, the current language stays
      `en` or `it` and only those are ever cached. */
  lemma {:induction false} SetLanguageKeepsSupported(p: Page, requested: string, fetch: string -> Option<Catalog>)
    requires WellFormed(p)
    ensures WellFormed(AfterSetLanguage(p, requested, fetch))
    decreases if Resolve(requested) == "en" then 0 else 1
  {
    var lang := Resolve(requested);
    var q := p.(buttons := MarkButtons(p.buttons, lang));
    if lang !in p.catalogs && fetch(lang).None? && lang != "en" && "en" !in p.catalogs {
      SetLanguageKeepsSupported(q, "en", fetch);
    }
  }

  /** Asking for an unsupported code is asking for English. */
  lemma UnsupportedActsAsEnglish(p: Page, requested: string, fetch: string -> Option<Catalog>)
    requires requested !in Supported
    ensures AfterSetLanguage(p, requested, fetch) == AfterSetLanguage(p, "en", fetch)
    ensures Fetches(p, requested, fetch) == Fetches(p, "en", fetch)
  {
  }

  /** The cache only grows: a cached catalog is never replaced and never
      removed, and the only new entries are languages that were fetched. */
  lemma {:induction false} CachedCatalogsNeverChange(p: Page, requested: string, fetch: string -> Option<Catalog>)
    ensures var r := AfterSetLanguage(p, requested, fetch);
      && (forall l :: l in p.catalogs ==> l in r.catalogs && r.catalogs[l] == p.catalogs[l])
      && (forall l :: l in r.catalogs && l !in p.catalogs ==> l in Fetches(p, requested, fetch))
    decreases if Resolve(requested) == "en" then 0 else 1
  {
    var lang := Resolve(requested);
    var q := p.(buttons := MarkButtons(p.buttons, lang));
    if lang !in p.catalogs && fetch(lang).None? && lang != "en" && "en" !in p.catalogs {
      CachedCatalogsNeverChange(q, "en", fetch);
      assert Fetches(p, requested, fetch) == [lang] + Fetches(q, "en", fetch);
    }
  }

  /** A catalog is requested only when it is not cached, each language at
      most once per call, and at most two requests happen (the one retry with
      English). */
  lemma {:induction false} FetchesOnlyWhatIsMissing(p: Page, requested: string, fetch: string -> Option<Catalog>)
    ensures var f := Fetches(p, requested, fetch);
      && |f| <= 2
      && (forall i :: 0 <= i < |f| ==> f[i] !in p.catalogs && f[i] in Supported)
      && (forall i, j :: 0 <= i < j < |f| ==> f[i] != f[j])
      && (Resolve(requested) in p.catalogs ==> f == [])
    decreases if Resolve(requested) == "en" then 0 else 1
  {
    var lang := Resolve(requested);
    if lang !in p.catalogs && fetch(lang).None? && lang != "en" && "en" !in p.catalogs {
      FetchesOnlyWhatIsMissing(p, "en", fetch);
      assert Fetches(p, "en", fetch) == ["en"];
    }
  }

  /** The success path: the language was cached or its file loaded. Then it
      becomes current, is stored as the preference and set on `<html lang>`,
      and the tagged elements show its catalog. */
  lemma SuccessCommits(p: Page, requested: string, fetch: string -> Option<Catalog>)
    requires Resolve(requested) in p.catalogs || fetch(Resolve(requested)).Some?
    ensures var lang := Resolve(requested);
      var cat := if lang in p.catalogs then p.catalogs[lang] else fetch(lang).value;
      var r := AfterSetLanguage(p, requested, fetch);
      && r.current == lang
      && r.preferred == Some(lang)
      && r.htmlLang == lang
      && lang in r.catalogs && r.catalogs[lang] == cat
      && r.elements == Translated(p.elements, cat)
      && r.buttons == MarkButtons(p.buttons, lang)
      && r.caption == MoreInfoCaption(cat, p.expanded)
  {
  }

  /** A failed load of Italian while English is cached: English becomes
      current and is rendered, but the preference and `<html lang>` are not
      written, and the Italian button stays marked active. */
  lemma FallbackToCachedEnglish(p: Page, requested: string, fetch: string -> Option<Catalog>)
    requires Resolve(requested) != "en" && Resolve(requested) !in p.catalogs
    requires fetch(Resolve(requested)).None? && "en" in p.catalogs
    ensures var r := AfterSetLanguage(p, requested, fetch);
      && r.current == "en"
      && r.preferred == p.preferred
      && r.htmlLang == p.htmlLang
      && r.catalogs == p.catalogs
      && r.elements == Translated(p.elements, p.catalogs["en"])
      && r.buttons == MarkButtons(p.buttons, Resolve(requested))
      && Fetches(p, requested, fetch) == [Resolve(requested)]
  {
  }

  /** Marking the buttons twice keeps only the second mark. */
  lemma MarkButtonsLastWins(bs: seq<LangButton>, a: string, b: string)
    ensures MarkButtons(MarkButtons(bs, a), b) == MarkButtons(bs, b)
  {
    var l, r := MarkButtons(MarkButtons(bs, a), b), MarkButtons(bs, b);
    assert |l| == |r|;
    forall i | 0 <= i < |l| ensures l[i] == r[i] {
    }
  }

  /** A failed load of Italian with nothing cached retries once with English.
      The retry is the whole outcome; if English fails too, only the buttons
      change (to English) and the current language stays what it was. */
  lemma RetryEnglishOnce(p: Page, requested: string, fetch: string -> Option<Catalog>)
    requires Resolve(requested) != "en" && Resolve(requested) !in p.catalogs
    requires fetch(Resolve(requested)).None? && "en" !in p.catalogs
    ensures var q := p.(buttons := MarkButtons(p.buttons, Resolve(requested)));
      && AfterSetLanguage(p, requested, fetch) == AfterSetLanguage(q, "en", fetch)
      && Fetches(p, requested, fetch) == [Resolve(requested), "en"]
    ensures fetch("en").None? ==>
      AfterSetLanguage(p, requested, fetch) == p.(buttons := MarkButtons(p.buttons, "en"))
    ensures fetch("en").Some? ==>
      var r := AfterSetLanguage(p, requested, fetch);
      r.current == "en" && r.preferred == Some("en") && r.catalogs == p.catalogs["en" := fetch("en").value]
  {
    MarkButtonsLastWins(p.buttons, Resolve(requested), "en");
  }

  /** When English itself cannot be loaded, `setLanguage` changes nothing but
      the button highlight. */
  lemma EnglishFailureChangesOnlyButtons(p: Page, requested: string, fetch: string -> Option<Catalog>)
    requires Resolve(requested) == "en" && "en" !in p.catalogs && fetch("en").None?
    ensures AfterSetLanguage(p, requested, fetch) == p.(buttons := MarkButtons(p.buttons, "en"))
    ensures Fetches(p, requested, fetch) == ["en"]
  {
  }

  lemma TranslatedIdempotent(els: seq<Element>, cat: Catalog)
    ensures Translated(Translated(els, cat), cat) == Translated(els, cat)
  {
    var once := Translated(els, cat);
    var twice := Translated(once, cat);
    forall i | 0 <= i < |els| ensures twice[i] == once[i] {
    }
  }

  /** Rendering twice is rendering once. */
  lemma RenderIdempotent(p: Page)
    ensures Render(Render(p)) == Render(p)
  {
    if p.current in p.catalogs {
      TranslatedIdempotent(p.elements, p.catalogs[p.current]);
    }
  }

  /** Re-selecting a language whose catalog is (or becomes) available is a
      no-op the second time. */
  lemma ReselectIsIdempotent(p: Page, requested: string, fetch: string -> Option<Catalog>)
    requires Resolve(requested) in p.catalogs || fetch(Resolve(requested)).Some?
    ensures var r := AfterSetLanguage(p, requested, fetch);
      AfterSetLanguage(r, requested, fetch) == r
  {
    var lang := Resolve(requested);
    var r := AfterSetLanguage(p, requested, fetch);
    SuccessCommits(p, requested, fetch);
    var q := p.(buttons := MarkButtons(p.buttons, lang));
    var q' := if lang in p.catalogs then q else q.(catalogs := q.catalogs[lang := fetch(lang).value]);
    assert r == Commit(q', lang);
    MarkButtonsLastWins(p.buttons, lang, lang);
    RenderIdempotent(q'.(current := lang));
  }

  /** Re-selecting after a failed load that fell back to a cached English
      catalog is a no-op the second time: the same request takes the same
      path again. */
  lemma ReselectAfterCachedFallback(p: Page, requested: string, fetch: string -> Option<Catalog>)
    requires Resolve(requested) != "en" && Resolve(requested) !in p.catalogs
    requires fetch(Resolve(requested)).None? && "en" in p.catalogs
    ensures var r := AfterSetLanguage(p, requested, fetch);
      AfterSetLanguage(r, requested, fetch) == r
  {
    var lang := Resolve(requested);
    var q := p.(buttons := MarkButtons(p.buttons, lang));
    var r := AfterSetLanguage(p, requested, fetch);
    assert r == Render(q.(current := "en"));
    MarkButtonsLastWins(p.buttons, lang, lang);
    RenderIdempotent(q.(current := "en"));
  }

  /** Re-selecting when English itself cannot be loaded is a no-op the second
      time. */
  lemma ReselectAfterEnglishFailure(p: Page, requested: string, fetch: string -> Option<Catalog>)
    requires Resolve(requested) !in p.catalogs && fetch(Resolve(requested)).None?
    requires "en" !in p.catalogs && fetch("en").None?
    ensures var r := AfterSetLanguage(p, requested, fetch);
      AfterSetLanguage(r, requested, fetch) == r
  {
    var lang := Resolve(requested);
    MarkButtonsLastWins(p.buttons, lang, "en");
    MarkButtonsLastWins(p.buttons, "en", lang);
    MarkButtonsLastWins(p.buttons, "en", "en");
  }

  /** The one case where re-selecting is not idempotent: a non-English load
      fails with nothing cached and the English retry loads. The first call
      leaves the English button active; the second call finds English cached,
      takes the cached fallback and marks the requested language's button
      again. */
  lemma ReselectAfterRetryMovesButtons(p: Page, requested: string, fetch: string -> Option<Catalog>)
    requires Resolve(requested) != "en" && Resolve(requested) !in p.catalogs
    requires fetch(Resolve(requested)).None? && "en" !in p.catalogs && fetch("en").Some?
    ensures var r := AfterSetLanguage(p, requested, fetch);
      AfterSetLanguage(r, requested, fetch) == r.(buttons := MarkButtons(p.buttons, Resolve(requested)))
    ensures (exists i :: 0 <= i < |p.buttons| && p.buttons[i].lang == Resolve(requested)) ==>
      var r := AfterSetLanguage(p, requested, fetch);
      AfterSetLanguage(r, requested, fetch) != r
  {
    var lang := Resolve(requested);
    var q := p.(buttons := MarkButtons(p.buttons, lang));
    var r := AfterSetLanguage(p, requested, fetch);
    var q2 := q.(buttons := MarkButtons(q.buttons, "en"), catalogs := q.catalogs["en" := fetch("en").value]);
    assert r == Commit(q2, "en");
    MarkButtonsLastWins(p.buttons, "en", lang);
    MarkButtonsLastWins(p.buttons, lang, "en");
    RenderIdempotent(q2.(current := "en"));
    if exists i :: 0 <= i < |p.buttons| && p.buttons[i].lang == lang {
      var i :| 0 <= i < |p.buttons| && p.buttons[i].lang == lang;
      assert r.buttons[i].active != MarkButtons(p.buttons, lang)[i].active;
    }
  }

  /** The two captions of the more-info button disagree on an English page
      whose catalog lacks `show-more`: `updateTranslations` writes the literal
      default, the click handler writes the key that `translate` returns. */
  lemma CaptionSourcesDisagree()
    ensures var p := Page("en", map["en" := map[]], None, "en", [], [], "", true, "");
      && MoreInfoCaption(p.catalogs["en"], false) == "SHOW MORE INFO"
      && Toggled(p).caption == "show-more"
  {
  }

  /** After a successful load, every tagged element whose key the catalog
      translates shows exactly what `translate` returns for that key; with a
      catalog that covers every key no element keeps its placeholder. */
  lemma RenderAgreesWithLookup(p: Page)
    requires p.current in p.catalogs
    ensures var r := Render(p);
      forall i :: 0 <= i < |p.elements| && HasText(p.catalogs[p.current], p.elements[i].key) ==>
        r.elements[i].text == Lookup(p.catalogs, p.current, p.elements[i].key)
  {
  }

  /** Without a catalog for the current language `updateTranslations` changes nothing. */
  lemma RenderWithoutCatalogIsNoOp(p: Page)
    requires p.current !in p.catalogs
    ensures Render(p) == p
  {
  }

  /** The more-info click handler (language.js:195-204). */
  function Toggled(p: Page): (r: Page)
    ensures r.expanded == !p.expanded
    ensures r.caption == Lookup(p.catalogs, p.current, MoreInfoKey(r.expanded)) && r.caption != ""
    ensures r == p.(expanded := r.expanded, caption := r.caption)
  {
    var expanded := !p.expanded;
    p.(expanded := expanded, caption := Lookup(p.catalogs, p.current, MoreInfoKey(expanded)))
  }

  /** Two clicks restore the panel state, and the caption shows the translation
      of that state; a caption that already showed it is restored exactly. */
  lemma ToggleTwiceRestores(p: Page)
    ensures Toggled(Toggled(p)).expanded == p.expanded
    ensures Toggled(Toggled(p)).caption == Lookup(p.catalogs, p.current, MoreInfoKey(p.expanded))
    ensures Toggled(p).caption != "" && Toggled(Toggled(p)).caption != ""
    ensures p.caption == Lookup(p.catalogs, p.current, MoreInfoKey(p.expanded)) ==> Toggled(Toggled(p)) == p
  {
  }

  /** The more-info button and the `additional-metrics` panel it opens; the
      DOM shares them between the translator and the speed test. */
  class MoreInfoPanel {
    var expanded: bool
    var caption: string

    constructor (expanded: bool, caption: string)
      ensures this.expanded == expanded && this.caption == caption
    {
      this.expanded := expanded;
      this.caption := caption;
    }
  }

  /** `LanguageManager`. */
  class LanguageManager {
    var currentLanguage: string
    var translations: map<string, Catalog>
    /** `localStorage['preferredLanguage']`. */
    var preferred: Option<string>
    /** The `lang` attribute of `<html>`. */
    var htmlLang: string
    var buttons: seq<LangButton>
    var elements: seq<Element>
    /** `document.title`. */
    var title: string
    const panel: MoreInfoPanel
    /** The languages requested from the network so far, in order. */
    ghost var fetchLog: seq<string>

    ghost predicate Valid()
      reads this
    {
      currentLanguage in Supported && forall l :: l in translations ==> l in Supported
    }

    function State(): Page
      reads this, panel
    {
      Page(currentLanguage, translations, preferred, htmlLang, buttons, elements, title,
           panel.expanded, panel.caption)
    }

    /** The constructor, which ends by running `loadInitialLanguage`. */
    constructor (stored: Option<string>, browser: Option<string>, fetch: string -> Option<Catalog>,
                 htmlLang: string, buttons: seq<LangButton>, elements: seq<Element>, title: string,
                 panel: MoreInfoPanel)
      modifies panel
      ensures Valid() && this.panel == panel
      ensures var start := Page("en", map[], stored, htmlLang, buttons, elements, title,
                                old(panel.expanded), old(panel.caption));
        && State() == AfterSetLanguage(start, InitialChoice(stored, browser), fetch)
        && fetchLog == Fetches(start, InitialChoice(stored, browser), fetch)
    {
      this.currentLanguage := "en";
      this.translations := map[];
      this.preferred := stored;
      this.htmlLang := htmlLang;
      this.buttons := buttons;
      this.elements := elements;
      this.title := title;
      this.panel := panel;
      this.fetchLog := [];
      new;
      LoadInitialLanguage(browser, fetch);
    }

    /** `translate(key)`, the total lookup over this manager's cache. */
    function Translate(key: string): (r: string)
      reads this
      ensures r == Lookup(translations, currentLanguage, key)
      ensures key != "" ==> r != ""
    {
      Lookup(translations, currentLanguage, key)
    }

    /** `loadInitialLanguage`. */
    method LoadInitialLanguage(browser: Option<string>, fetch: string -> Option<Catalog>)
      requires Valid()
      modifies this, panel
      ensures Valid()
      ensures State() == AfterSetLanguage(old(State()), InitialChoice(old(preferred), browser), fetch)
      ensures fetchLog == old(fetchLog) + Fetches(old(State()), InitialChoice(old(preferred), browser), fetch)
    {
      var saved := preferred;
      if saved.Some? && saved.value != "" && saved.value in Supported {
        SetLanguage(saved.value, fetch);
      } else {
        DetectBrowserLanguage(browser, fetch);
      }
    }

    /** `detectBrowserLanguage`. */
    method DetectBrowserLanguage(browser: Option<string>, fetch: string -> Option<Catalog>)
      requires Valid()
      modifies this, panel
      ensures Valid()
      ensures State() == AfterSetLanguage(old(State()), BrowserChoice(browser), fetch)
      ensures fetchLog == old(fetchLog) + Fetches(old(State()), BrowserChoice(browser), fetch)
    {
      match browser
      case None =>
        SetLanguage("en", fetch);
      case Some(b) =>
        var browserLang := PrimarySubtag(b);
        if browserLang in Supported {
          SetLanguage(browserLang, fetch);
        } else {
          SetLanguage("en", fetch);
        }
    }

    /** `setLanguage(lang)`. */
    method SetLanguage(requested: string, fetch: string -> Option<Catalog>)
      requires Valid()
      modifies this, panel
      ensures Valid()
      ensures State() == AfterSetLanguage(old(State()), requested, fetch)
      ensures fetchLog == old(fetchLog) + Fetches(old(State()), requested, fetch)
      decreases if Resolve(requested) == "en" then 0 else 1, 1
    {
      ghost var p0 := State();
      ghost var log0 := fetchLog;
      var lang := requested;
      if lang !in Supported {
        lang := "en";
      }
      assert lang == Resolve(requested);
      MarkActiveButtons(lang);
      ghost var q := State();
      assert q == p0.(buttons := MarkButtons(p0.buttons, lang));
      if lang !in translations {
        var loaded := LoadCatalog(lang, fetch);
        if !loaded {
          RecoverFromLoadFailure(lang, fetch);
          assert Fetches(p0, requested, fetch) == [lang] + (if lang != "en" && "en" !in p0.catalogs then ["en"] else []);
          return;
        }
        assert Fetches(p0, requested, fetch) == [lang];
      } else {
        assert Fetches(p0, requested, fetch) == [] && log0 + [] == log0;
      }
      CommitLanguage(lang);
    }

    /** The `try` block of `setLanguage` (language.js:89-95): fetch the
        catalog and cache it when the response is ok. */
    method LoadCatalog(lang: string, fetch: string -> Option<Catalog>) returns (loaded: bool)
      requires Valid() && lang in Supported
      modifies this
      ensures Valid()
      ensures loaded <==> fetch(lang).Some?
      ensures State() == old(State()).(catalogs := if loaded then old(translations)[lang := fetch(lang).value] else old(translations))
      ensures fetchLog == old(fetchLog) + [lang]
    {
      fetchLog := fetchLog + [lang];
      var response := fetch(lang);
      loaded := response.Some?;
      if loaded {
        translations := translations[lang := response.value];
      }
    }

    /** The success path of `setLanguage` (language.js:116-125): switch,
        re-render, remember the choice and set the page's `lang`. */
    method CommitLanguage(lang: string)
      requires Valid() && lang in Supported
      modifies this, panel
      ensures Valid()
      ensures State() == Commit(old(State()), lang)
      ensures fetchLog == old(fetchLog)
    {
      currentLanguage := lang;
      UpdateTranslations();
      preferred := Some(lang);
      htmlLang := lang;
    }

    /** The `catch` block of `setLanguage` (language.js:96-111): fall back to
        a cached English catalog, else retry once with English. */
    method RecoverFromLoadFailure(lang: string, fetch: string -> Option<Catalog>)
      requires Valid() && lang in Supported && lang !in translations
      modifies this, panel
      ensures Valid()
      ensures lang != "en" && "en" in old(translations) ==>
        State() == Render(old(State()).(current := "en"))
      ensures lang != "en" && "en" !in old(translations) ==>
        State() == AfterSetLanguage(old(State()), "en", fetch)
      ensures lang == "en" ==> State() == old(State())
      ensures fetchLog == old(fetchLog) + (if lang != "en" && "en" !in old(translations) then ["en"] else [])
      decreases if lang == "en" then 0 else 1, 0
    {
      if lang != "en" && "en" in translations {
        currentLanguage := "en";
        UpdateTranslations();
      } else if lang != "en" {
        SetLanguage("en", fetch);
      } else {
        assert fetchLog == old(fetchLog) + [];
      }
    }

    /** The button loop of `setLanguage` (language.js:80-86). */
    method MarkActiveButtons(lang: string)
      modifies this
      ensures State() == old(State()).(buttons := MarkButtons(old(buttons), lang))
      ensures fetchLog == old(fetchLog)
    {
      var i := 0;
      while i < |buttons|
        invariant 0 <= i <= |buttons| == |old(buttons)|
        invariant forall j :: 0 <= j < i ==> buttons[j] == LangButton(old(buttons)[j].lang, old(buttons)[j].lang == lang)
        invariant forall j :: i <= j < |buttons| ==> buttons[j] == old(buttons)[j]
        invariant State() == old(State()).(buttons := buttons)
        invariant fetchLog == old(fetchLog)
      {
        buttons := buttons[i := buttons[i].(active := buttons[i].lang == lang)];
        i := i + 1;
      }
      assert buttons == MarkButtons(old(buttons), lang);
    }

    /** `updateTranslations`. */
    method UpdateTranslations()
      modifies this, panel
      ensures State() == Render(old(State()))
      ensures fetchLog == old(fetchLog)
    {
      if currentLanguage !in translations {
        return;
      }
      var cat := translations[currentLanguage];
      var i := 0;
      while i < |elements|
        invariant 0 <= i <= |elements| == |old(elements)|
        invariant forall j :: 0 <= j < i ==> elements[j] == Rewrite(old(elements)[j], cat)
        invariant forall j :: i <= j < |elements| ==> elements[j] == old(elements)[j]
        invariant State() == old(State()).(elements := elements)
        invariant fetchLog == old(fetchLog)
      {
        var key := elements[i].key;
        if HasText(cat, key) {
          elements := elements[i := elements[i].(text := cat[key])];
        }
        i := i + 1;
      }
      assert elements == Translated(old(elements), cat);
      if panel.expanded {
        panel.caption := if HasText(cat, "show-less") then cat["show-less"] else "SHOW LESS INFO";
      } else {
        panel.caption := if HasText(cat, "show-more") then cat["show-more"] else "SHOW MORE INFO";
      }
      if HasText(cat, "page-title") {
        title := cat["page-title"];
      }
    }

    /** The click handler on the more-info button (language.js:195-204). */
    method ToggleMoreInfo()
      modifies panel
      ensures State() == Toggled(old(State()))
    {
      panel.expanded := !panel.expanded;
      if panel.expanded {
        panel.caption := Translate("show-less");
      } else {
        panel.caption := Translate("show-more");
      }
    }
  }
}
