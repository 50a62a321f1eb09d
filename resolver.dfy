/**
 * The `i18nTranslate` template function: look the key up with the language
 * fallback, return the key itself when there is no text, and interpolate the
 * chosen text only when arguments were given. It always succeeds.
 */
module Resolver {
  import opened Wrappers
  import opened Decimal
  import opened Dictionary
  import opened Placeholders
  import opened Interpolation

  function Translate(d: Dict, key: string, lang: string, args: seq<Arg>): string {
    match Select(d, key, lang)
    case None => key
    case Some(text) => if |args| > 0 then Interpolate(d, text, lang, args) else text
  }

  /** An absent key is its own translation, whatever the arguments; in particular the empty key gives "". */
  lemma KeyAbsent(d: Dict, key: string, lang: string, args: seq<Arg>)
    requires key !in d
    ensures Translate(d, key, lang, args) == key
  {
  }

  /**
   * With the requested language present, its text is used: exactly as
   * stored without arguments, interpolated with them.
   */
  lemma RequestedLanguage(d: Dict, key: string, lang: string, args: seq<Arg>)
    requires key in d && lang in d[key]
    ensures Translate(d, key, lang, args) ==
      if args == [] then d[key][lang] else Interpolate(d, d[key][lang], lang, args)
  {
  }

  /**
   * With the requested language absent and English present, the English
   * text is used, and its nested keys are still resolved in the requested language.
   */
  lemma EnglishFallback(d: Dict, key: string, lang: string, args: seq<Arg>)
    requires key in d && lang !in d[key] && FallbackLanguage in d[key]
    ensures Translate(d, key, lang, args) ==
      if args == [] then d[key][FallbackLanguage] else Interpolate(d, d[key][FallbackLanguage], lang, args)
  {
  }

  /** With neither the requested language nor English, the key comes back, never interpolated. */
  lemma NoTranslation(d: Dict, key: string, lang: string, args: seq<Arg>)
    requires key in d && lang !in d[key] && FallbackLanguage !in d[key]
    ensures Translate(d, key, lang, args) == key
  {
  }

  /** Without arguments the chosen text is returned as it is, even when it holds placeholders. */
  lemma NoArguments(d: Dict, key: string, lang: string)
    ensures Translate(d, key, lang, []) == Lookup(d, key, lang)
  {
  }

  /**
   * Interpolation does nothing that matters when every placeholder of the
   * chosen text is out of range: the result is the chosen text, or the key.
   */
  lemma OutOfRangeKept(d: Dict, key: string, lang: string, args: seq<Arg>)
    requires forall g :: g in Scan(Lookup(d, key, lang)) && g.Token? ==> Value(g.digits) >= |args|
    ensures Translate(d, key, lang, args) == Lookup(d, key, lang)
  {
    if Select(d, key, lang).Some? && |args| > 0 {
      InterpolateAllOutOfRange(d, Lookup(d, key, lang), lang, args);
    }
  }

  /** A translation without placeholders is returned unchanged, whatever the arguments. */
  lemma NoPlaceholders(d: Dict, key: string, lang: string, args: seq<Arg>)
    requires forall g :: g in Scan(Lookup(d, key, lang)) ==> g.Char?
    ensures Translate(d, key, lang, args) == Lookup(d, key, lang)
  {
    OutOfRangeKept(d, key, lang, args);
  }
}
