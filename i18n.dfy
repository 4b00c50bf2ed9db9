/** Language codes and the persisted language choice (client/src/lib/i18n.ts):
    the supported languages, browser-language negotiation, and the stored
    preference in the browser's `localStorage`. Whether a `window` exists
    (it does not during server rendering) is an explicit flag. */
module I18n {
  import opened Common

  datatype Language = En | It | Fr | De | Es | Sv | Pt | Nl

  /** The `Language` string literal. */
  function Code(l: Language): string {
    match l
    case En => "en"
    case It => "it"
    case Fr => "fr"
    case De => "de"
    case Es => "es"
    case Sv => "sv"
    case Pt => "pt"
    case Nl => "nl"
  }

  /** `LANGUAGES[l]`, the language's own name. */
  function LanguageName(l: Language): string {
    match l
    case En => "English"
    case It => "Italiano"
    case Fr => "Français"
    case De => "Deutsch"
    case Es => "Español"
    case Sv => "Svenska"
    case Pt => "Português"
    case Nl => "Nederlands"
  }

  /** `Object.keys(LANGUAGES)`, in declaration order. */
  const SupportedCodes: seq<string> := ["en", "it", "fr", "de", "es", "sv", "pt", "nl"]

  const DefaultLanguage: Language := En

  const StorageKey := "trustnest-language"

  /** The language a supported code names. */
  function FromCode(s: string): (r: Option<Language>)
    ensures r.Some? <==> s in SupportedCodes
    ensures r.Some? ==> Code(r.value) == s
  {
    if s == "en" then Some(En)
    else if s == "it" then Some(It)
    else if s == "fr" then Some(Fr)
    else if s == "de" then Some(De)
    else if s == "es" then Some(Es)
    else if s == "sv" then Some(Sv)
    else if s == "pt" then Some(Pt)
    else if s == "nl" then Some(Nl)
    else None
  }

  /** There are exactly eight codes, one per language, each decoding to
      its own language. */
  lemma CodesRoundTrip(l: Language, m: Language)
    ensures |SupportedCodes| == 8
    ensures Code(l) in SupportedCodes && FromCode(Code(l)) == Some(l)
    ensures Code(l) == Code(m) ==> l == m
  {
  }

  /** `getBrowserLanguage`: the part of `navigator.language` before the
      first "-" when that is a supported code, otherwise the default; with
      no window, the default. */
  function BrowserLanguage(hasWindow: bool, navigatorLanguage: string): (r: Language)
    ensures !hasWindow ==> r == DefaultLanguage
    ensures hasWindow && PrefixBefore(navigatorLanguage, '-') in SupportedCodes ==>
      Code(r) == PrefixBefore(navigatorLanguage, '-')
    ensures hasWindow && PrefixBefore(navigatorLanguage, '-') !in SupportedCodes ==> r == DefaultLanguage
  {
    if !hasWindow then DefaultLanguage
    else GetOr(FromCode(PrefixBefore(navigatorLanguage, '-')), DefaultLanguage)
  }

  /** A regional tag of a supported language selects that language, and an
      unsupported one falls back to English. */
  lemma BrowserLanguageExamples()
    ensures BrowserLanguage(true, "it-IT") == It
    ensures BrowserLanguage(true, "zh-CN") == En
    ensures BrowserLanguage(true, "de") == De
  {
    assert "it-IT" == "it" + "-IT";
    assert PrefixBefore("it-IT", '-') == "it";
    assert PrefixBefore("zh-CN", '-') == "zh";
    assert PrefixBefore("de", '-') == "de";
  }

  /** `getStoredLanguage` on a given storage: the stored string, unchecked,
      when there is a window and it is non-empty; otherwise the default. */
  function StoredLanguage(hasWindow: bool, storage: map<string, string>): (r: string)
    ensures !hasWindow ==> r == "en"
    ensures hasWindow && StorageKey in storage && storage[StorageKey] != "" ==> r == storage[StorageKey]
    ensures hasWindow && (StorageKey !in storage || storage[StorageKey] == "") ==> r == "en"
  {
    if !hasWindow then Code(DefaultLanguage)
    else if StorageKey in storage && storage[StorageKey] != "" then storage[StorageKey]
    else Code(DefaultLanguage)
  }

  /** The storage after `setStoredLanguage(lang)`. */
  function AfterStore(hasWindow: bool, storage: map<string, string>, lang: Language): (s: map<string, string>)
    ensures hasWindow ==> s.Keys == storage.Keys + {StorageKey} && s[StorageKey] == Code(lang)
    ensures hasWindow ==> forall k :: k in storage && k != StorageKey ==> s[k] == storage[k]
    ensures !hasWindow ==> s == storage
  {
    if hasWindow then storage[StorageKey := Code(lang)] else storage
  }

  /** Set-then-get returns what was set. */
  lemma SetThenGet(storage: map<string, string>, lang: Language)
    ensures StoredLanguage(true, AfterStore(true, storage, lang)) == Code(lang)
    ensures FromCode(StoredLanguage(true, AfterStore(true, storage, lang))) == Some(lang)
  {
  }

  /** Of two writes the last one wins. */
  lemma LastWriteWins(storage: map<string, string>, first: Language, second: Language)
    ensures StoredLanguage(true, AfterStore(true, AfterStore(true, storage, first), second)) == Code(second)
    ensures AfterStore(true, AfterStore(true, storage, first), second) == AfterStore(true, storage, second)
  {
  }

  /** Without a window writes are dropped and reads give the default. */
  lemma NoWindowNoPersistence(storage: map<string, string>, lang: Language)
    ensures AfterStore(false, storage, lang) == storage
    ensures StoredLanguage(false, AfterStore(false, storage, lang)) == Code(DefaultLanguage)
  {
  }

  /** The stored value is not validated: any non-empty string is returned
      as it is, even one that names no language. */
  lemma StoredValueNotValidated(storage: map<string, string>, value: string)
    requires value != ""
    ensures StoredLanguage(true, storage[StorageKey := value]) == value
    ensures value !in SupportedCodes ==> FromCode(StoredLanguage(true, storage[StorageKey := value])).None?
  {
  }

  /** The browser environment: whether a window exists, and its
      `localStorage`. */
  class Browser {
    const hasWindow: bool
    var localStorage: map<string, string>

    constructor (hasWindow: bool, localStorage: map<string, string>)
      ensures this.hasWindow == hasWindow && this.localStorage == localStorage
    {
      this.hasWindow := hasWindow;
      this.localStorage := localStorage;
    }

    function GetStoredLanguage(): (r: string)
      reads this
      ensures r == StoredLanguage(hasWindow, localStorage)
    {
      StoredLanguage(hasWindow, localStorage)
    }

    method SetStoredLanguage(lang: Language)
      modifies this
      ensures localStorage == AfterStore(hasWindow, old(localStorage), lang)
    {
      if hasWindow {
        localStorage := localStorage[StorageKey := Code(lang)];
      }
    }
  }

  /** The storage tests' sequence: "de" then "es", each read back. */
  method StoreTwice(browser: Browser) returns (afterFirst: string, afterSecond: string)
    requires browser.hasWindow
    modifies browser
    ensures afterFirst == "de" && afterSecond == "es"
    ensures browser.GetStoredLanguage() == "es"
  {
    browser.SetStoredLanguage(De);
    afterFirst := browser.GetStoredLanguage();
    browser.SetStoredLanguage(Es);
    afterSecond := browser.GetStoredLanguage();
  }
}
