/** The language context: the current language, its persistence under `app_language`, and the
    lookup `t` with its fall-back to the key. */
module Language {
  import opened Wrappers

  datatype Lang = Vi | En
  {
    /** The value written to and read from storage. */
    function Code(): string
    {
      match this
      case Vi => "vi"
      case En => "en"
    }
  }

  /** The storage key the language is persisted under. */
  const StorageKey := "app_language"

  /** One dictionary per language; their contents are data the model does not fix. */
  datatype Translations = Translations(vi: map<string, string>, en: map<string, string>)
  {
    function Dict(lang: Lang): map<string, string>
    {
      match lang
      case Vi => vi
      case En => en
    }
  }

  /** `t(key)`: the dictionary entry when it is present and non-empty, otherwise the key itself. */
  function T(dict: map<string, string>, key: string): (r: string)
    ensures key in dict && dict[key] != "" ==> r == dict[key]
    ensures r == key || (key in dict && r == dict[key])
    ensures r == "" ==> key == ""
  {
    if key in dict && dict[key] != "" then dict[key] else key
  }

  /** Whatever the dictionary holds, a non-empty key never translates to the empty string. */
  lemma TNonEmpty(dict: map<string, string>, key: string)
    requires key != ""
    ensures T(dict, key) != ""
  {
  }

  /** So a `t(key) || fallback` with a non-empty key never reaches its fall-back. */
  lemma FallbackNeverUsed(dict: map<string, string>, key: string, fallback: string)
    requires key != ""
    ensures (if T(dict, key) != "" then T(dict, key) else fallback) == T(dict, key)
  {
    TNonEmpty(dict, key);
  }

  /** The stored value, accepted only when it is exactly "vi" or "en". */
  function ParseSaved(saved: Option<string>): (r: Option<Lang>)
    ensures r.Some? <==> saved == Some("vi") || saved == Some("en")
    ensures r.Some? ==> saved == Some(r.value.Code())
  {
    if saved == Some("vi") then Some(Vi)
    else if saved == Some("en") then Some(En)
    else None
  }

  /** What `setLanguage` persists is read back as the same language. */
  lemma ParseSavedCode(lang: Lang)
    ensures ParseSaved(Some(lang.Code())) == Some(lang)
  {
  }

  class LanguageProvider {
    var language: Lang
    /** The browser's storage, as a map of keys to strings. */
    var storage: map<string, string>
    const translations: Translations

    /** The provider renders first with 'vi'. */
    constructor (store: map<string, string>, dicts: Translations)
      ensures language == Vi && storage == store && translations == dicts
    {
      language := Vi;
      storage := store;
      translations := dicts;
    }

    /** The mount effect: a saved "vi" or "en" is adopted, anything else (or nothing) keeps the
        current language; storage is only read. */
    method LoadSaved()
      modifies this`language
      ensures var saved := if StorageKey in storage then Some(storage[StorageKey]) else None;
        language == ParseSaved(saved).GetOr(old(language))
    {
      var saved := if StorageKey in storage then Some(storage[StorageKey]) else None;
      var parsed := ParseSaved(saved);
      if parsed.Some? {
        language := parsed.value;
      }
    }

    /** `setLanguage`: the state and the persisted value change together; no other key moves. */
    method SetLanguage(lang: Lang)
      modifies this`language, this`storage
      ensures language == lang
      ensures storage == old(storage)[StorageKey := lang.Code()]
      ensures ParseSaved(Some(storage[StorageKey])) == Some(language)
    {
      language := lang;
      storage := storage[StorageKey := lang.Code()];
    }

    /** `t` in the current language. */
    function Translate(key: string): (r: string)
      reads this
      ensures key != "" ==> r != ""
    {
      T(translations.Dict(language), key)
    }
  }
}
