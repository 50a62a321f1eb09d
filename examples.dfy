/**
 * The translation scenarios of the repository's test suite, i18n_test.go
 * (all but the two with float arguments), and a few that show the single
 * pass, stated as lemmas about the model. A template with placeholders is
 * taken apart by OnePlaceholder, TwoPlaceholders or ThreePlaceholders, each
 * an instance of InterpolateRendered; what remains is to evaluate each
 * argument's text.
 * The `...Shape` and `...Entries` lemmas only split the facts about literal
 * strings and literal dictionaries out of the main proofs, which keeps each
 * proof small for the solver.
 */
module Examples {
  import opened Wrappers
  import opened Decimal
  import opened Dictionary
  import opened Placeholders
  import opened Interpolation
  import opened Resolver

  lemma SmallNumerals()
    ensures FromNat(0) == "0" && FromNat(1) == "1" && FromNat(2) == "2" && FromNat(5) == "5"
  {
  }

  /** TestI18nTranslateBasic: each key in each requested language. */
  lemma TranslateBasic(d: Dict)
    requires d == map["hello" := map["de" := "Hallo", "en" := "Hello"],
                      "welcome" := map["de" := "Willkommen", "en" := "Welcome"]]
    ensures Translate(d, "hello", "de", []) == "Hallo"
    ensures Translate(d, "hello", "en", []) == "Hello"
    ensures Translate(d, "welcome", "de", []) == "Willkommen"
  {
  }

  /** TestI18nTranslateFallback: English stands in for German. */
  lemma TranslateFallback(d: Dict)
    requires d == map["hello" := map["en" := "Hello"]]
    ensures Translate(d, "hello", "de", []) == "Hello"
  {
    assert "de" !in d["hello"] by { assert "de"[0] != "en"[0]; }
  }

  /**
   * TestI18nNoArgs: the requested language's text, unchanged. The English
   * case is not part of that test; it is added here for the same dictionary.
   */
  lemma BasicLookup(d: Dict)
    requires d == map["hello" := map["de" := "Hallo Welt", "en" := "Hello World"]]
    ensures Translate(d, "hello", "de", []) == "Hallo Welt"
    ensures Translate(d, "hello", "en", []) == "Hello World"
  {
  }

  /**
   * TestI18nFallbackToEnglish: English stands in for a missing language. The
   * German case is not part of that test; it is added here for the same dictionary.
   */
  lemma FallbackToEnglish(d: Dict)
    requires d == map["welcome" := map["en" := "Welcome"]]
    ensures Translate(d, "welcome", "de", []) == "Welcome"
    ensures Translate(d, "welcome", "it", []) == "Welcome"
  {
    assert "de" !in d["welcome"] by { assert "de"[0] != "en"[0]; }
    assert "it" !in d["welcome"] by { assert "it"[0] != "en"[0]; }
  }

  /** TestI18nTranslateMissingKey, TestI18nTranslateEmptyKey, TestI18nTranslateMissingLanguage. */
  lemma KeyFallbacks(d: Dict)
    requires d == map["hello" := map["fr" := "Bonjour"]]
    ensures Translate(map[], "nonexistent", "en", []) == "nonexistent"
    ensures Translate(map[], "", "en", []) == ""
    ensures Translate(d, "hello", "de", []) == "hello"
  {
    assert "de" !in d["hello"] by { assert "de"[0] != "fr"[0]; }
    assert "en" !in d["hello"] by { assert "en"[0] != "fr"[0]; }
  }

  /** One placeholder between two brace-free texts: `InterpolateRendered` for three parts. */
  lemma OnePlaceholder(d: Dict, p: string, n: nat, q: string, lang: string, args: seq<Arg>)
    requires |args| <= MaxInt && BraceFree(p) && BraceFree(q)
    ensures Interpolate(d, p + (Placeholder(n) + q), lang, args) == p + (Filled(d, lang, args, n) + q)
  {
    var parts := [Literal(p), Slot(n), Literal(q)];
    InterpolateRendered(d, parts, lang, args);
    assert parts[1..][1..] == parts[2..] && parts[2..][1..] == [];
    var x := Filled(d, lang, args, n);
    assert Render(parts[2..]) == q && Fill(d, lang, args, parts[2..]) == q;
    assert Render(parts[1..]) == Placeholder(n) + q && Fill(d, lang, args, parts[1..]) == x + q;
  }

  /** Two placeholders, each after a brace-free text: `InterpolateRendered` for four parts. */
  lemma TwoPlaceholders(d: Dict, p: string, m: nat, q: string, n: nat, lang: string, args: seq<Arg>)
    requires |args| <= MaxInt && BraceFree(p) && BraceFree(q)
    ensures Interpolate(d, p + (Placeholder(m) + (q + Placeholder(n))), lang, args) ==
      p + (Filled(d, lang, args, m) + (q + Filled(d, lang, args, n)))
  {
    var parts := [Literal(p), Slot(m), Literal(q), Slot(n)];
    InterpolateRendered(d, parts, lang, args);
    assert parts[1..][1..] == parts[2..] && parts[2..][1..] == parts[3..] && parts[3..][1..] == [];
    var x, y := Filled(d, lang, args, m), Filled(d, lang, args, n);
    assert Render(parts[3..]) == Placeholder(n) && Fill(d, lang, args, parts[3..]) == y;
    assert Render(parts[2..]) == q + Placeholder(n) && Fill(d, lang, args, parts[2..]) == q + y;
    assert Render(parts[1..]) == Placeholder(m) + (q + Placeholder(n));
    assert Fill(d, lang, args, parts[1..]) == x + (q + y);
  }

  /** Three placeholders, each after a brace-free text: `InterpolateRendered` for six parts. */
  lemma ThreePlaceholders(d: Dict, p: string, l: nat, q: string, m: nat, r: string, n: nat,
                          lang: string, args: seq<Arg>)
    requires |args| <= MaxInt && BraceFree(p) && BraceFree(q) && BraceFree(r)
    ensures Interpolate(d, p + (Placeholder(l) + (q + (Placeholder(m) + (r + Placeholder(n))))), lang, args) ==
      p + (Filled(d, lang, args, l) + (q + (Filled(d, lang, args, m) + (r + Filled(d, lang, args, n)))))
  {
    var parts := [Literal(p), Slot(l), Literal(q), Slot(m), Literal(r), Slot(n)];
    InterpolateRendered(d, parts, lang, args);
    assert parts[1..][1..] == parts[2..] && parts[2..][1..] == parts[3..] && parts[3..][1..] == parts[4..];
    assert parts[4..][1..] == parts[5..] && parts[5..][1..] == [];
    var x, y, z := Filled(d, lang, args, l), Filled(d, lang, args, m), Filled(d, lang, args, n);
    assert Render(parts[5..]) == Placeholder(n) && Fill(d, lang, args, parts[5..]) == z;
    assert Render(parts[4..]) == r + Placeholder(n) && Fill(d, lang, args, parts[4..]) == r + z;
    assert Render(parts[3..]) == Placeholder(m) + (r + Placeholder(n));
    assert Fill(d, lang, args, parts[3..]) == y + (r + z);
    assert Render(parts[2..]) == q + (Placeholder(m) + (r + Placeholder(n)));
    assert Fill(d, lang, args, parts[2..]) == q + (y + (r + z));
    assert Render(parts[1..]) == Placeholder(l) + (q + (Placeholder(m) + (r + Placeholder(n))));
    assert Fill(d, lang, args, parts[1..]) == x + (q + (y + (r + z)));
  }

  /** TestI18nInterpolateInvalidPlaceholder: `{5}` with one argument stays as it is. */
  lemma InvalidPlaceholderKept(d: Dict, args: seq<Arg>)
    requires d == map["msg" := map["en" := "Value: {0} and {5}"]]
    requires args == [Str("hello")]
    ensures Translate(d, "msg", "en", args) == "Value: hello and {5}"
  {
    assert Select(d, "msg", "en") == Some("Value: {0} and {5}");
    assert ArgText(d, "en", args[0]) == "hello" by {
      assert "hello"[0] != NestedPrefix[0];
    }
    InvalidPlaceholderShape();
    TwoPlaceholders(d, "Value: ", 0, " and ", 5, "en", args);
  }

  lemma InvalidPlaceholderShape()
    ensures BraceFree("Value: ") && BraceFree(" and ")
    ensures "Value: " + (Placeholder(0) + (" and " + Placeholder(5))) == "Value: {0} and {5}"
    ensures "Value: " + ("hello" + (" and " + Placeholder(5))) == "Value: hello and {5}"
  {
    SmallNumerals();
  }

  /** TestI18nInterpolateWithI18nPrefix: a nested key follows the requested language. */
  lemma NestedKeyFollowsLanguage(d: Dict, args: seq<Arg>)
    requires d == map["account" := map["de" := "Konto", "en" := "Account"],
                      "error.invalidAmount" := map["de" := "Ungültiger Betrag: {0}", "en" := "Invalid amount: {0}"]]
    requires args == [Str("i18n:account")]
    ensures Translate(d, "error.invalidAmount", "en", args) == "Invalid amount: Account"
    ensures Translate(d, "error.invalidAmount", "de", args) == "Ungültiger Betrag: Konto"
  {
    NestedKeyEntries(d, args);
    NestedKeyShape();
    OnePlaceholder(d, "Invalid amount: ", 0, "", "en", args);
    OnePlaceholder(d, "Ungültiger Betrag: ", 0, "", "de", args);
  }

  lemma NestedKeyEntries(d: Dict, args: seq<Arg>)
    requires d == map["account" := map["de" := "Konto", "en" := "Account"],
                      "error.invalidAmount" := map["de" := "Ungültiger Betrag: {0}", "en" := "Invalid amount: {0}"]]
    requires args == [Str("i18n:account")]
    ensures Select(d, "error.invalidAmount", "en") == Some("Invalid amount: {0}")
    ensures Select(d, "error.invalidAmount", "de") == Some("Ungültiger Betrag: {0}")
    ensures ArgText(d, "en", args[0]) == "Account" && ArgText(d, "de", args[0]) == "Konto"
  {
    assert "i18n:account" == NestedPrefix + "account";
    NestedArgument(d, "account", "en");
    NestedArgument(d, "account", "de");
  }

  lemma NestedKeyShape()
    ensures BraceFree("Invalid amount: ") && BraceFree("Ungültiger Betrag: ") && BraceFree("")
    ensures "Invalid amount: " + (Placeholder(0) + "") == "Invalid amount: {0}"
    ensures "Ungültiger Betrag: " + (Placeholder(0) + "") == "Ungültiger Betrag: {0}"
    ensures "Invalid amount: " + ("Account" + "") == "Invalid amount: Account"
    ensures "Ungültiger Betrag: " + ("Konto" + "") == "Ungültiger Betrag: Konto"
  {
    SmallNumerals();
  }

  /** TestI18nInterpolateWithoutPrefix: a plain string argument is inserted verbatim. */
  lemma PlainStringArgument(d: Dict, args: seq<Arg>)
    requires d == map["error.user" := map["de" := "Fehler bei Benutzer: {0}", "en" := "Error for user: {0}"]]
    requires args == [Str("Hans Mueller")]
    ensures Translate(d, "error.user", "en", args) == "Error for user: Hans Mueller"
  {
    assert Select(d, "error.user", "en") == Some("Error for user: {0}");
    assert ArgText(d, "en", args[0]) == "Hans Mueller" by {
      assert "Hans Mueller"[0] != NestedPrefix[0];
    }
    PlainStringArgumentShape();
    OnePlaceholder(d, "Error for user: ", 0, "", "en", args);
  }

  lemma PlainStringArgumentShape()
    ensures BraceFree("Error for user: ") && BraceFree("")
    ensures "Error for user: " + (Placeholder(0) + "") == "Error for user: {0}"
    ensures "Error for user: " + ("Hans Mueller" + "") == "Error for user: Hans Mueller"
  {
    SmallNumerals();
  }

  /** TestI18nInterpolateNestedI18nPrefix: a nested key in a German template. */
  lemma NestedKeyInGerman(d: Dict, args: seq<Arg>)
    requires d == map["account" := map["de" := "Konto", "en" := "Account"],
                      "msg" := map["de" := "Typ: {0}", "en" := "Type: {0}"]]
    requires args == [Str("i18n:account")]
    ensures Translate(d, "msg", "de", args) == "Typ: Konto"
  {
    NestedKeyInGermanEntries(d, args);
    NestedKeyInGermanShape();
    OnePlaceholder(d, "Typ: ", 0, "", "de", args);
  }

  lemma NestedKeyInGermanEntries(d: Dict, args: seq<Arg>)
    requires d == map["account" := map["de" := "Konto", "en" := "Account"],
                      "msg" := map["de" := "Typ: {0}", "en" := "Type: {0}"]]
    requires args == [Str("i18n:account")]
    ensures Select(d, "msg", "de") == Some("Typ: {0}")
    ensures ArgText(d, "de", args[0]) == "Konto"
  {
    assert "i18n:account" == NestedPrefix + "account";
    NestedArgument(d, "account", "de");
  }

  lemma NestedKeyInGermanShape()
    ensures BraceFree("Typ: ") && BraceFree("")
    ensures "Typ: " + (Placeholder(0) + "") == "Typ: {0}"
    ensures "Typ: " + ("Konto" + "") == "Typ: Konto"
  {
    SmallNumerals();
  }

  /** TestI18nInterpolateUnknownI18nKey: an unknown nested key stands for itself. */
  lemma UnknownNestedKey(d: Dict, args: seq<Arg>)
    requires d == map["msg" := map["en" := "Value: {0}"]]
    requires args == [Str("i18n:nonexistent")]
    ensures Translate(d, "msg", "en", args) == "Value: nonexistent"
  {
    assert Select(d, "msg", "en") == Some("Value: {0}");
    assert "i18n:nonexistent" == NestedPrefix + "nonexistent";
    assert "nonexistent" !in d by { assert "nonexistent"[0] != "msg"[0]; }
    NestedArgument(d, "nonexistent", "en");
    UnknownNestedKeyShape();
    OnePlaceholder(d, "Value: ", 0, "", "en", args);
  }

  lemma UnknownNestedKeyShape()
    ensures BraceFree("Value: ") && BraceFree("")
    ensures "Value: " + (Placeholder(0) + "") == "Value: {0}"
    ensures "Value: " + ("nonexistent" + "") == "Value: nonexistent"
  {
    SmallNumerals();
  }

  /** TestI18nInterpolateWithInt: an integer argument in decimal. */
  lemma IntegerArgument(d: Dict, args: seq<Arg>)
    requires d == map["count" := map["en" := "Items: {0}"]]
    requires args == [Int(42)]
    ensures Translate(d, "count", "en", args) == "Items: 42"
  {
    assert Select(d, "count", "en") == Some("Items: {0}");
    assert FromInt(42) == "42" by { assert FromNat(4) == "4"; }
    IntegerArgumentShape();
    OnePlaceholder(d, "Items: ", 0, "", "en", args);
  }

  lemma IntegerArgumentShape()
    ensures BraceFree("Items: ") && BraceFree("")
    ensures "Items: " + (Placeholder(0) + "") == "Items: {0}"
    ensures "Items: " + ("42" + "") == "Items: 42"
  {
    SmallNumerals();
  }

  /** TestI18nInterpolateMultipleArgs: two nested keys. */
  lemma TwoNestedKeys(d: Dict, args: seq<Arg>)
    requires d == map["error" := map["de" := "Fehler: {0} bei {1}", "en" := "Error: {0} at {1}"],
                      "system" := map["de" := "System", "en" := "System"],
                      "module" := map["de" := "Modul", "en" := "Module"]]
    requires args == [Str("i18n:system"), Str("i18n:module")]
    ensures Translate(d, "error", "en", args) == "Error: System at Module"
  {
    TwoNestedKeysEntries(d, args);
    TwoNestedKeysShape();
    TwoPlaceholders(d, "Error: ", 0, " at ", 1, "en", args);
  }

  lemma TwoNestedKeysEntries(d: Dict, args: seq<Arg>)
    requires d == map["error" := map["de" := "Fehler: {0} bei {1}", "en" := "Error: {0} at {1}"],
                      "system" := map["de" := "System", "en" := "System"],
                      "module" := map["de" := "Modul", "en" := "Module"]]
    requires args == [Str("i18n:system"), Str("i18n:module")]
    ensures Select(d, "error", "en") == Some("Error: {0} at {1}")
    ensures ArgText(d, "en", args[0]) == "System" && ArgText(d, "en", args[1]) == "Module"
  {
    assert "i18n:system" == NestedPrefix + "system";
    assert "i18n:module" == NestedPrefix + "module";
    NestedArgument(d, "system", "en");
    NestedArgument(d, "module", "en");
  }

  lemma TwoNestedKeysShape()
    ensures BraceFree("Error: ") && BraceFree(" at ")
    ensures "Error: " + (Placeholder(0) + (" at " + Placeholder(1))) == "Error: {0} at {1}"
    ensures "Error: " + ("System" + (" at " + "Module")) == "Error: System at Module"
  {
    SmallNumerals();
  }

  /** TestI18nInterpolateMixedArgs: a nested key, an integer and a plain string. */
  lemma MixedArguments(d: Dict, args: seq<Arg>)
    requires d == map["error" := map["en" := "Error: {0} with code {1} for user {2}"],
                      "system" := map["en" := "System"]]
    requires args == [Str("i18n:system"), Int(500), Str("alice")]
    ensures Translate(d, "error", "en", args) == "Error: System with code 500 for user alice"
  {
    assert Select(d, "error", "en") == Some("Error: {0} with code {1} for user {2}");
    assert "i18n:system" == NestedPrefix + "system";
    NestedArgument(d, "system", "en");
    assert FromInt(500) == "500" by { assert FromNat(5) == "5"; assert FromNat(50) == "50"; }
    assert ArgText(d, "en", args[2]) == "alice" by { assert "alice"[0] != NestedPrefix[0]; }
    MixedArgumentsShape();
    ThreePlaceholders(d, "Error: ", 0, " with code ", 1, " for user ", 2, "en", args);
  }

  lemma MixedArgumentsShape()
    ensures BraceFree("Error: ") && BraceFree(" with code ") && BraceFree(" for user ")
    ensures "Error: " + (Placeholder(0) + (" with code " + (Placeholder(1) + (" for user " + Placeholder(2)))))
      == "Error: {0} with code {1} for user {2}"
    ensures "Error: " + ("System" + (" with code " + ("500" + (" for user " + "alice")))) ==
      "Error: System with code 500 for user alice"
  {
    MixedTemplateShape();
    MixedResultShape();
  }

  lemma MixedTemplateShape()
    ensures "Error: " + (Placeholder(0) + (" with code " + (Placeholder(1) + (" for user " + Placeholder(2)))))
      == "Error: {0} with code {1} for user {2}"
  {
    SmallNumerals();
  }

  lemma MixedResultShape()
    ensures "Error: " + ("System" + (" with code " + ("500" + (" for user " + "alice")))) ==
      "Error: System with code 500 for user alice"
  {
  }

  /** Substituted text is not scanned again: an argument that looks like a placeholder is inserted as it is. */
  lemma SubstitutionNotRescanned(d: Dict, args: seq<Arg>)
    requires args == [Str("{1}"), Str("x")]
    ensures Interpolate(d, "{0}{1}", "en", args) == "{1}x"
  {
    assert ArgText(d, "en", args[0]) == "{1}" by {
      assert "{1}"[0] != NestedPrefix[0];
    }
    assert ArgText(d, "en", args[1]) == "x" by {
      assert !HasPrefix("x", NestedPrefix);
    }
    SubstitutionShape();
    TwoPlaceholders(d, "", 0, "", 1, "en", args);
  }

  lemma SubstitutionShape()
    ensures BraceFree("")
    ensures "" + (Placeholder(0) + ("" + Placeholder(1))) == "{0}{1}"
    ensures "" + ("{1}" + ("" + "x")) == "{1}x"
  {
    SmallNumerals();
  }

  /** A nested value is not interpolated again, even when it refers to itself. */
  lemma NestedValueNotRescanned(d: Dict, args: seq<Arg>)
    requires d == map["k" := map["en" := "{0}"]]
    requires args == [Str("i18n:k")]
    ensures Translate(d, "k", "en", args) == "{0}"
  {
    assert Select(d, "k", "en") == Some("{0}");
    assert ArgText(d, "en", args[0]) == "{0}" by {
      NestedArgument(d, "k", "en");
      assert "i18n:k" == NestedPrefix + "k";
    }
    NestedValueShape();
    OnePlaceholder(d, "", 0, "", "en", args);
  }

  lemma NestedValueShape()
    ensures BraceFree("")
    ensures "" + (Placeholder(0) + "") == "{0}"
    ensures "" + ("{0}" + "") == "{0}"
  {
    SmallNumerals();
  }

  /** `strconv.Atoi` accepts leading zeros, so `{00}` selects the first argument. */
  lemma LeadingZerosSelect(d: Dict, args: seq<Arg>)
    requires args == [Str("x")]
    ensures Interpolate(d, "{00}", "en", args) == "x"
  {
    var ds: Digits := "00";
    InterpolatePlaceholder(d, ds, "", "en", args);
    assert "{" + ds + "}" + "" == "{00}";
    assert Value(ds) == 0 by {
      ValueLeadingZero("0");
      assert ds == "0" + "0";
    }
    assert ArgText(d, "en", args[0]) == "x" by {
      assert !HasPrefix("x", NestedPrefix);
    }
  }
}
