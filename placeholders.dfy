/**
 * Recognising placeholders: the pattern `\{(\d+)\}` and the leftmost,
 * non-overlapping way a regular-expression search cuts a template into
 * single characters and placeholders.
 */
module Placeholders {
  import opened Wrappers
  import opened Decimal

  /** A piece of a scanned template: one character outside any placeholder, or a placeholder `{digits}`. */
  datatype Segment = Char(c: char) | Token(digits: Digits)

  function Text(g: Segment): string {
    match g
    case Char(c) => [c]
    case Token(ds) => "{" + ds + "}"
  }

  /** The template text the segments were cut from. */
  function Join(gs: seq<Segment>): string {
    if gs == [] then [] else Text(gs[0]) + Join(gs[1..])
  }

  /** The placeholder for argument index `n`, written without leading zeros. */
  function Placeholder(n: nat): string {
    "{" + FromNat(n) + "}"
  }

  /** Length of the run of digits at the front of `s`. */
  function DigitRun(s: string): (k: nat)
    ensures k <= |s| && AllDigits(s[..k])
    ensures k < |s| ==> !IsDigit(s[k])
  {
    if s != [] && IsDigit(s[0]) then
      var k := 1 + DigitRun(s[1..]);
      assert forall i :: 1 <= i < k ==> s[..k][i] == s[1..][..k - 1][i - 1];
      k
    else 0
  }

  /** The digits of the placeholder that starts `s`, if one does. */
  function TokenAt(s: string): (r: Option<Digits>)
    ensures r.Some? ==> |r.value| + 2 <= |s| && s[..|r.value| + 2] == "{" + r.value + "}"
    ensures s != [] && s[0] != '{' ==> r.None?
  {
    if |s| == 0 || s[0] != '{' then None
    else
      var k := DigitRun(s[1..]);
      if k > 0 && k + 1 < |s| && s[k + 1] == '}' then
        assert s[1..k + 1] == s[1..][..k];
        Some(s[1..k + 1])
      else None
  }

  /**
   * The left-to-right cut of a template: at each position a placeholder is
   * taken whole if one starts there, otherwise one character is.
   */
  function Scan(s: string): (gs: seq<Segment>)
    ensures Join(gs) == s
    decreases |s|
  {
    if s == [] then []
    else match TokenAt(s)
      case Some(ds) => [Token(ds)] + Scan(s[|ds| + 2..])
      case None => [Char(s[0])] + Scan(s[1..])
  }

  lemma {:induction false} DigitRunStops(ds: string, t: string)
    requires AllDigits(ds)
    requires t == [] || !IsDigit(t[0])
    ensures DigitRun(ds + t) == |ds|
    decreases |ds|
  {
    if ds != [] {
      assert (ds + t)[1..] == ds[1..] + t;
      DigitRunStops(ds[1..], t);
    } else {
      assert ds + t == t;
    }
  }

  /** A placeholder at the front of the text is always recognised, whatever follows it. */
  lemma TokenAtPlaceholder(ds: Digits, rest: string)
    ensures TokenAt("{" + ds + "}" + rest) == Some(ds)
  {
    var s := "{" + ds + "}" + rest;
    assert s[1..] == ds + ("}" + rest);
    DigitRunStops(ds, "}" + rest);
    assert s[1..|ds| + 1] == ds;
  }

  /** No character kept as literal text starts a placeholder. */
  ghost predicate Leftmost(gs: seq<Segment>) {
    forall i :: 0 <= i < |gs| && gs[i].Char? ==> TokenAt(Join(gs[i..])).None?
  }

  /** The scan misses no placeholder. */
  lemma {:induction false} ScanLeftmost(s: string)
    ensures Leftmost(Scan(s))
    decreases |s|
  {
    if s != [] {
      var gs := Scan(s);
      match TokenAt(s)
      case Some(ds) =>
        ScanLeftmost(s[|ds| + 2..]);
        assert forall i :: 1 <= i < |gs| ==> gs[i..] == Scan(s[|ds| + 2..])[i - 1..];
      case None =>
        ScanLeftmost(s[1..]);
        assert gs[0..] == gs;
        assert forall i :: 1 <= i < |gs| ==> gs[i..] == Scan(s[1..])[i - 1..];
    }
  }

  /** The scan is the only cut of the text into segments in which no literal character starts a placeholder. */
  lemma {:induction false} ScanUnique(s: string, gs: seq<Segment>)
    requires Join(gs) == s && Leftmost(gs)
    ensures gs == Scan(s)
    decreases |gs|
  {
    if gs != [] {
      var tail := gs[1..];
      assert Leftmost(tail) by {
        forall i | 0 <= i < |tail| && tail[i].Char?
          ensures TokenAt(Join(tail[i..])).None?
        {
          assert tail[i..] == gs[i + 1..];
        }
      }
      match gs[0]
      case Token(ds) =>
        TokenAtPlaceholder(ds, Join(tail));
        assert s[|ds| + 2..] == Join(tail);
        ScanUnique(Join(tail), tail);
      case Char(c) =>
        assert gs[0..] == gs;
        assert s[1..] == Join(tail);
        ScanUnique(Join(tail), tail);
    }
  }
}
