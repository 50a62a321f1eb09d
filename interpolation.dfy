/**
 * Positional placeholder substitution: one left-to-right pass over the
 * template in which each placeholder is replaced on its own by the text of
 * the argument it indexes, and the inserted text is never scanned again.
 */
module Interpolation {
  import opened Wrappers
  import opened Decimal
  import opened Dictionary
  import opened Placeholders

  /** The prefix marking a string argument as a translation key to resolve. */
  const NestedPrefix := "i18n:"

  /**
   * A template argument. Strings are told apart from everything else, as the
   * type assertion `arg.(string)` does; an integer is rendered in decimal and
   * any other value stands for the text `fmt.Sprint` gives it.
   */
  datatype Arg = Str(s: string) | Int(n: int) | Other(rendered: string)

  /** Text without an opening brace, which therefore holds no placeholder. */
  predicate BraceFree(s: string) {
    forall i :: 0 <= i < |s| ==> s[i] != '{'
  }

  predicate HasPrefix(s: string, p: string) {
    |p| <= |s| && s[..|p|] == p
  }

  /** Whether a placeholder's digits fail to select an argument: unparsable as an `int`, or not below `|args|`. */
  predicate OutOfRange(args: seq<Arg>, ds: Digits) {
    var idx := Atoi(ds);
    idx.None? || idx.value >= |args|
  }

  /**
   * A placeholder fails to select an argument exactly when its number is at
   * or beyond the end of the argument list: the range error of `strconv.Atoi`
   * only strikes numbers no argument list reaches.
   */
  lemma OutOfRangeIsBound(args: seq<Arg>, ds: Digits)
    requires |args| <= MaxInt
    ensures OutOfRange(args, ds) <==> Value(ds) >= |args|
  {
  }

  /** The text an argument contributes: a nested key is looked up with the same fallback, a string is verbatim. */
  function ArgText(d: Dict, lang: string, a: Arg): string {
    match a
    case Str(s) => if HasPrefix(s, NestedPrefix) then Lookup(d, s[|NestedPrefix|..], lang) else s
    case Int(n) => FromInt(n)
    case Other(t) => t
  }

  /** The text the placeholder for index `n` becomes: its argument's text, or the placeholder itself. */
  function Filled(d: Dict, lang: string, args: seq<Arg>, n: nat): string {
    if n < |args| then ArgText(d, lang, args[n]) else Placeholder(n)
  }

  /**
   * What one segment becomes in the output. Since a Go slice never holds
   * more than `MaxInt` elements, the parse-or-bound guard is a plain bound
   * check on the placeholder's number.
   */
  function Replace(d: Dict, lang: string, args: seq<Arg>, g: Segment): (r: string)
    ensures g.Char? ==> r == [g.c]
    ensures g.Token? && |args| <= MaxInt ==>
      r == if Value(g.digits) < |args| then ArgText(d, lang, args[Value(g.digits)]) else Text(g)
  {
    match g
    case Char(c) => [c]
    case Token(ds) =>
      if OutOfRange(args, ds) then Text(g) else ArgText(d, lang, args[Atoi(ds).value])
  }

  /** Substitutes every placeholder of `s`, scanning left to right and resuming after each placeholder. */
  function Interpolate(d: Dict, s: string, lang: string, args: seq<Arg>): string
    decreases |s|
  {
    if s == [] then []
    else match TokenAt(s)
      case Some(ds) => Replace(d, lang, args, Token(ds)) + Interpolate(d, s[|ds| + 2..], lang, args)
      case None => [s[0]] + Interpolate(d, s[1..], lang, args)
  }

  /** The replacements of the segments, in order: the search-then-replace reading of the pass. */
  function Expand(d: Dict, lang: string, args: seq<Arg>, gs: seq<Segment>): string {
    if gs == [] then [] else Replace(d, lang, args, gs[0]) + Expand(d, lang, args, gs[1..])
  }

  /**
   * The pass equals finding all placeholders first and replacing each
   * segment independently: no replacement depends on, or is rescanned with,
   * the text around it.
   */
  lemma {:induction false} InterpolateIsExpandOfScan(d: Dict, s: string, lang: string, args: seq<Arg>)
    ensures Interpolate(d, s, lang, args) == Expand(d, lang, args, Scan(s))
    decreases |s|
  {
    if s != [] {
      var gs := Scan(s);
      match TokenAt(s)
      case Some(ds) =>
        assert gs[1..] == Scan(s[|ds| + 2..]);
        InterpolateIsExpandOfScan(d, s[|ds| + 2..], lang, args);
      case None =>
        assert gs[1..] == Scan(s[1..]);
        InterpolateIsExpandOfScan(d, s[1..], lang, args);
    }
  }

  /** A placeholder is replaced by its argument's text, which is inserted as it is and not scanned again. */
  lemma InterpolatePlaceholder(d: Dict, ds: Digits, rest: string, lang: string, args: seq<Arg>)
    ensures Interpolate(d, "{" + ds + "}" + rest, lang, args) ==
      Replace(d, lang, args, Token(ds)) + Interpolate(d, rest, lang, args)
  {
    var s := "{" + ds + "}" + rest;
    TokenAtPlaceholder(ds, rest);
    assert s[|ds| + 2..] == rest;
  }

  /**
   * The placeholder for index `n` becomes the text of argument `n`, and stays
   * as it is when there is no such argument.
   */
  lemma PlaceholderSelectsArgument(d: Dict, n: nat, rest: string, lang: string, args: seq<Arg>)
    requires |args| <= MaxInt
    ensures Interpolate(d, Placeholder(n) + rest, lang, args) ==
      Filled(d, lang, args, n) + Interpolate(d, rest, lang, args)
  {
    InterpolatePlaceholder(d, FromNat(n), rest, lang, args);
  }

  /** Text without an opening brace is copied to the output unchanged. */
  lemma {:induction false} InterpolateLiteralPrefix(d: Dict, p: string, s: string, lang: string, args: seq<Arg>)
    requires BraceFree(p)
    ensures Interpolate(d, p + s, lang, args) == p + Interpolate(d, s, lang, args)
    decreases |p|
  {
    if p != [] {
      var ps := p + s;
      var out := Interpolate(d, s, lang, args);
      assert ps[0] == p[0] && ps[1..] == p[1..] + s;
      InterpolateLiteralPrefix(d, p[1..], s, lang, args);
      assert [p[0]] + (p[1..] + out) == p + out;
    } else {
      assert p + s == s;
    }
  }

  /** A brace-free text followed by a placeholder: the text is copied, the placeholder replaced or kept. */
  lemma InterpolateAround(d: Dict, p: string, n: nat, rest: string, lang: string, args: seq<Arg>)
    requires |args| <= MaxInt
    requires BraceFree(p)
    ensures Interpolate(d, p + (Placeholder(n) + rest), lang, args) ==
      p + (Filled(d, lang, args, n) + Interpolate(d, rest, lang, args))
  {
    PlaceholderSelectsArgument(d, n, rest, lang, args);
    InterpolateLiteralPrefix(d, p, Placeholder(n) + rest, lang, args);
  }

  /** A template written as literal texts and placeholders for chosen indices. */
  datatype Part = Literal(s: string) | Slot(n: nat)

  function Render(parts: seq<Part>): string {
    if parts == [] then []
    else (match parts[0] case Literal(s) => s case Slot(n) => Placeholder(n)) + Render(parts[1..])
  }

  /** What the template of `parts` should become: each slot filled with its argument, or left as it is. */
  function Fill(d: Dict, lang: string, args: seq<Arg>, parts: seq<Part>): string {
    if parts == [] then []
    else
      (match parts[0]
       case Literal(s) => s
       case Slot(n) => Filled(d, lang, args, n))
      + Fill(d, lang, args, parts[1..])
  }

  /**
   * A template made of brace-free texts and placeholders expands to the
   * texts with every placeholder filled independently.
   */
  lemma {:induction false} InterpolateRendered(d: Dict, parts: seq<Part>, lang: string, args: seq<Arg>)
    requires |args| <= MaxInt
    requires forall i :: 0 <= i < |parts| && parts[i].Literal? ==> BraceFree(parts[i].s)
    ensures Interpolate(d, Render(parts), lang, args) == Fill(d, lang, args, parts)
    decreases |parts|
  {
    if parts != [] {
      InterpolateRendered(d, parts[1..], lang, args);
      match parts[0]
      case Literal(s) =>
        InterpolateLiteralPrefix(d, s, Render(parts[1..]), lang, args);
      case Slot(n) =>
        PlaceholderSelectsArgument(d, n, Render(parts[1..]), lang, args);
    }
  }

  /** Segments whose placeholders all fail to select an argument come out as the text they were cut from. */
  lemma {:induction false} ExpandOutOfRange(d: Dict, lang: string, args: seq<Arg>, gs: seq<Segment>)
    requires forall g :: g in gs && g.Token? ==> OutOfRange(args, g.digits)
    ensures Expand(d, lang, args, gs) == Join(gs)
    decreases |gs|
  {
    if gs != [] {
      assert gs[0] in gs;
      assert forall g :: g in gs[1..] ==> g in gs;
      ExpandOutOfRange(d, lang, args, gs[1..]);
    }
  }

  /**
   * A template all of whose placeholders name indices at or beyond the end
   * of the argument list comes out unchanged: such placeholders stay as
   * literal text, as does everything outside them.
   */
  lemma InterpolateAllOutOfRange(d: Dict, s: string, lang: string, args: seq<Arg>)
    requires forall g :: g in Scan(s) && g.Token? ==> Value(g.digits) >= |args|
    ensures Interpolate(d, s, lang, args) == s
  {
    InterpolateIsExpandOfScan(d, s, lang, args);
    ExpandOutOfRange(d, lang, args, Scan(s));
  }

  /** With no arguments at all, every placeholder stays literal. */
  lemma InterpolateNoArguments(d: Dict, s: string, lang: string)
    ensures Interpolate(d, s, lang, []) == s
  {
    InterpolateAllOutOfRange(d, s, lang, []);
  }

  /** A template in which the scan finds no placeholder comes out unchanged, whatever the arguments. */
  lemma InterpolateNoPlaceholders(d: Dict, s: string, lang: string, args: seq<Arg>)
    requires forall g :: g in Scan(s) ==> g.Char?
    ensures Interpolate(d, s, lang, args) == s
  {
    InterpolateAllOutOfRange(d, s, lang, args);
  }

  /** A template without an opening brace comes out unchanged, whatever the arguments. */
  lemma InterpolateBraceFree(d: Dict, s: string, lang: string, args: seq<Arg>)
    requires BraceFree(s)
    ensures Interpolate(d, s, lang, args) == s
  {
    InterpolateLiteralPrefix(d, s, "", lang, args);
    assert s + "" == s;
  }

  /**
   * A nested key argument `i18n:k` resolves with the fallback of the top
   * level: `k` in the requested language, else in English, else `k` itself.
   */
  lemma NestedArgument(d: Dict, k: string, lang: string)
    ensures var r := ArgText(d, lang, Str(NestedPrefix + k));
      && (k in d && lang in d[k] ==> r == d[k][lang])
      && (k in d && lang !in d[k] && FallbackLanguage in d[k] ==> r == d[k][FallbackLanguage])
      && (k !in d || (lang !in d[k] && FallbackLanguage !in d[k]) ==> r == k)
  {
    var s := NestedPrefix + k;
    assert s[..|NestedPrefix|] == NestedPrefix;
    assert s[|NestedPrefix|..] == k;
  }

  /** A string argument without the prefix is inserted verbatim. */
  lemma PlainArgument(d: Dict, s: string, lang: string)
    requires !HasPrefix(s, NestedPrefix)
    ensures ArgText(d, lang, Str(s)) == s
  {
  }
}
