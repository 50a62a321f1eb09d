/**
 * The translation dictionary, translation key -> language code -> text, and
 * the language fallback every lookup in the resolver follows: the requested
 * language, else English, else nothing.
 */
module Dictionary {
  import opened Wrappers

  /** Two-level mapping from translation key to language code to localized text. */
  type Dict = map<string, map<string, string>>

  /** The language tried when the requested one has no text. */
  const FallbackLanguage := "en"

  /**
   * The text chosen for `key` in `lang`: the requested language if the key
   * has it, otherwise English, otherwise none (the key itself is absent, or
   * has neither language).
   */
  function Select(d: Dict, key: string, lang: string): (r: Option<string>)
    ensures r.Some? <==> key in d && (lang in d[key] || FallbackLanguage in d[key])
    ensures key in d && lang in d[key] ==> r == Some(d[key][lang])
    ensures key in d && lang !in d[key] && FallbackLanguage in d[key] ==> r == Some(d[key][FallbackLanguage])
  {
    if key !in d then None
    else if lang in d[key] then Some(d[key][lang])
    else if FallbackLanguage in d[key] then Some(d[key][FallbackLanguage])
    else None
  }

  /** The chosen text, or the key itself when there is none. */
  function Lookup(d: Dict, key: string, lang: string): (r: string)
    ensures key !in d ==> r == key
    ensures key in d && lang in d[key] ==> r == d[key][lang]
    ensures key in d && lang !in d[key] && FallbackLanguage in d[key] ==> r == d[key][FallbackLanguage]
    ensures key in d && lang !in d[key] && FallbackLanguage !in d[key] ==> r == key
  {
    match Select(d, key, lang)
    case Some(text) => text
    case None => key
  }
}
