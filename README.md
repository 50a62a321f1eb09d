# caddy-i18n-template-ext: the translation resolver

This project models the resolution engine of the `i18nTranslate` template
function of the Caddy i18n templates extension. The model covers three parts:

- The dictionary maps a translation key to a language code to a text.
- A lookup uses the requested language, else English (`"en"`), else the key
  itself. It never fails.
- The chosen text is interpolated only when arguments were given. Each
  placeholder `{n}` is replaced by argument `n`, in one left-to-right pass.
  - A string argument that starts with `i18n:` names another key. That key
    is resolved with the same fallback, and its text is inserted without
    being scanned again.
  - Any other string is inserted verbatim.
  - An integer is written in decimal.
  - A placeholder whose index is out of range stays as literal text.

Modules, one file each:

- `Wrappers` (`wrappers.dfy`): the `Option` type.
- `Decimal` (`decimal.dfy`): digit strings and their values. It also holds
  `strconv.Atoi` as it behaves on 64-bit platforms, and the decimal text
  `fmt.Sprint` gives an integer.
- `Dictionary` (`dictionary.dfy`): the two-level map and the language
  fallback (`Select`, `Lookup`).
- `Placeholders` (`placeholders.dfy`): how the regular expression `\{(\d+)\}`
  cuts a template into literal characters and placeholders (`Scan`), with
  its leftmost-match property and its uniqueness.
- `Interpolation` (`interpolation.dfy`): `interpolateTranslations` as the
  recursive function `Interpolate`, plus the text each kind of argument
  contributes.
- `Resolver` (`resolver.dfy`): the `i18nTranslate` closure as `Translate`.
- `Examples` (`examples.dfy`): the translation scenarios of `i18n_test.go`,
  stated and proved against the model. The float scenarios are the
  exception (see "Left out"). The loading and module-registration tests
  concern code outside the model.

Go strings are modelled as sequences of `char`. Two facts make this
harmless:

- The placeholder pattern matches only ASCII bytes (`\d` is ASCII in RE2).
- Every other operation only compares or copies substrings.

`Interpolate` recursion and the regular expression's pass are shown to agree
by `InterpolateIsExpandOfScan` together with `Placeholders.ScanUnique`:

- Go's `ReplaceAllStringFunc` finds all leftmost non-overlapping matches.
  It then replaces each match with the callback's result, and never looks
  at that result again.
- `Scan` is the unique cut of the template in which no literal character
  starts a match.
- `Interpolate` is the replacement of `Scan`'s segments, one by one.

Interpolation runs only when at least one argument is given (i18n.go:171).
A text without placeholders would come out unchanged anyway: see
`Resolver.NoPlaceholders`.

## Model

| member | source | states |
|---|---|---|
| Decimal.FromNat | i18n.go:231 | the decimal text of a natural number denotes exactly that number, and starts with `0` only when it is the single digit `0` (no leading zeros) |
| Decimal.FromInt | i18n.go:231 | an integer argument is written as its magnitude in decimal, preceded by `-` exactly when negative, with no leading zeros before or after the sign |
| Decimal.Atoi | i18n.go:199-200 | reading the digits left to right with a range check, as `strconv.Atoi` does, succeeds exactly when the number they denote fits in a 64-bit `int`, and then gives that number |
| Decimal.ParseDigitsValue | i18n.go:200 | the fold over digits onto a number read so far gives the number they denote together, or a range error once that number passes `MaxInt` |
| Decimal.AtoiFromNat | i18n.go:200 | parsing the decimal text of a number gives that number back exactly when it fits in an `int` |
| Decimal.ValueLeadingZero | i18n.go:200 | a leading zero does not change the number a digit string denotes, so `{00}` names index 0 |
| Dictionary.Select | i18n.go:136-160 | a text is chosen exactly when the key exists and has the requested language or English; it is the requested language's text when present, otherwise the English text |
| Dictionary.Lookup | i18n.go:136-160 | the four cases of the fallback: absent key gives the key, requested language gives its text, otherwise English, otherwise the key |
| Placeholders.DigitRun | i18n.go:195 | the length of the longest run of digits at the front of a text: everything before it is a digit, the character after it is not |
| Placeholders.TokenAt | i18n.go:195 | a match found at the front of a text is `{`, a non-empty digit string and `}`; a text not starting with `{` has no match there |
| Placeholders.Scan | i18n.go:195-197 | the segments the pass cuts a template into join back to the template exactly |
| Placeholders.TokenAtPlaceholder | i18n.go:195 | `{digits}` at the front of a text is always recognised as a match, whatever follows it |
| Placeholders.ScanLeftmost | i18n.go:197 | no character the scan leaves as literal text starts a match, so no placeholder is missed |
| Placeholders.ScanUnique | i18n.go:197 | any cut of the template into segments with no missed match is the scan, so the matches are determined uniquely |
| Interpolation.OutOfRangeIsBound | i18n.go:201 | the guard that keeps a match (a parse error, or an index not below the argument count) holds exactly when the placeholder's number is at or beyond the end of the argument list |
| Interpolation.Replace | i18n.go:199-205 | a literal character is copied; a placeholder within range becomes its argument's text, and one out of range (including unparsable digits) stays as it is |
| Interpolation.InterpolateIsExpandOfScan | i18n.go:193-235 | the single pass equals replacing each segment of the scan independently, in order |
| Interpolation.InterpolatePlaceholder | i18n.go:197-205 | a placeholder at the front is replaced, and the pass resumes after it without scanning the inserted text |
| Interpolation.PlaceholderSelectsArgument | i18n.go:199-205 | `{n}` becomes argument `n`'s text when `n` is below the number of arguments and stays as `{n}` otherwise; the rest is interpolated on its own |
| Interpolation.InterpolateLiteralPrefix | i18n.go:197 | text without an opening brace is copied to the output unchanged |
| Interpolation.InterpolateAround | i18n.go:197-205 | a brace-free text followed by a placeholder: the text is copied and the placeholder replaced or kept |
| Interpolation.InterpolateRendered | i18n.go:197-232 | a template of brace-free texts and placeholders becomes the texts with each placeholder filled independently |
| Interpolation.ExpandOutOfRange | i18n.go:199-203 | segments whose placeholders all fail to select an argument come out as the text they were cut from |
| Interpolation.InterpolateAllOutOfRange | i18n.go:199-203 | a template whose placeholders all index at or beyond the end of the argument list comes out unchanged |
| Interpolation.InterpolateNoArguments | i18n.go:199-203 | with no arguments every placeholder stays literal and the template comes out unchanged |
| Interpolation.InterpolateNoPlaceholders | i18n.go:197 | a template in which no placeholder is found comes out unchanged whatever the arguments |
| Interpolation.InterpolateBraceFree | i18n.go:197 | a template without an opening brace comes out unchanged whatever the arguments |
| Interpolation.NestedArgument | i18n.go:210-225 | an argument `i18n:k` gives `k`'s text in the requested language, else in English, else `k` itself, and that text is inserted as it is |
| Interpolation.PlainArgument | i18n.go:226-227 | a string argument without the `i18n:` prefix is inserted verbatim |
| Resolver.Translate | i18n.go:131-176 | (no contract of its own) the closure's result; its behaviour is stated by the seven `Resolver` lemmas below, one per branch of the lookup and the interpolation guard |
| Interpolation.Interpolate | i18n.go:193-235 | (no contract of its own) the single pass; it is tied to the leftmost cut by `InterpolateIsExpandOfScan` with `ScanLeftmost` and `ScanUnique`, and to the independent `Fill` by `InterpolateRendered` |
| Interpolation.ArgText | i18n.go:205-231 | (no contract of its own) the text an argument contributes; stated by `NestedArgument`, `PlainArgument` and, for integers, `Decimal.FromInt` |
| Resolver.KeyAbsent | i18n.go:136-143 | an absent key, the empty key included, is returned as its own translation whatever the arguments |
| Resolver.RequestedLanguage | i18n.go:146 | with the requested language present its text is used: returned exactly without arguments, interpolated with nested keys in that language otherwise |
| Resolver.EnglishFallback | i18n.go:146-149 | with the requested language absent and English present the English text is used, interpolated with nested keys still resolved in the requested language |
| Resolver.NoTranslation | i18n.go:150-160 | with neither the requested language nor English the key is returned and no interpolation happens |
| Resolver.NoArguments | i18n.go:171-175 | without arguments the chosen text, or the key, is returned as it is, even if it holds placeholders |
| Resolver.OutOfRangeKept | i18n.go:171-175 | when every placeholder of the chosen text is out of range the result is the chosen text, or the key |
| Resolver.NoPlaceholders | i18n.go:171-175 | a translation without placeholders is returned unchanged whatever arguments are given |
| Examples.TranslateBasic | i18n_test.go:121-153 | `hello` gives `Hallo` in German and `Hello` in English; `welcome` gives `Willkommen` in German |
| Examples.TranslateFallback | i18n_test.go:155-174 | a key with only English gives `Hello` for German |
| Examples.BasicLookup | i18n_test.go:464-483 | `hello` in German without arguments is `Hallo Welt`; the English case `Hello World` is added for the same dictionary |
| Examples.FallbackToEnglish | i18n_test.go:485-505 | a key with only English gives `Welcome` for Italian; the German case is added for the same dictionary |
| Examples.KeyFallbacks | i18n_test.go:176-235 | a missing key and the empty key translate to themselves; a key with only French gives the key for German |
| Examples.InvalidPlaceholderKept | i18n_test.go:332-352 | `Value: {0} and {5}` with the one argument `hello` gives `Value: hello and {5}` |
| Examples.NestedKeyFollowsLanguage | i18n_test.go:237-265 | the nested key `i18n:account` gives `Account` in the English template and `Konto` in the German one |
| Examples.PlainStringArgument | i18n_test.go:267-286 | the plain string `Hans Mueller` fills `Error for user: {0}` verbatim |
| Examples.NestedKeyInGerman | i18n_test.go:354-375 | the nested key `i18n:account` gives `Typ: Konto` in the German template |
| Examples.UnknownNestedKey | i18n_test.go:377-397 | an unknown nested key `i18n:nonexistent` is inserted as `nonexistent` |
| Examples.IntegerArgument | i18n_test.go:443-462 | the integer argument 42 is inserted as `42` |
| Examples.TwoNestedKeys | i18n_test.go:288-309 | two nested keys fill `Error: {0} at {1}` as `Error: System at Module` |
| Examples.MixedArguments | i18n_test.go:399-420 | a nested key, the integer 500 and a plain string fill the template to `Error: System with code 500 for user alice` |
| Examples.SubstitutionNotRescanned | i18n.go:197 | in `{0}{1}` an argument `{1}` is inserted as it is, not replaced by argument 1 |
| Examples.LeadingZerosSelect | i18n.go:199-205 | `{00}` with the one argument `x` gives `x`, because the digits parse with their leading zero |
| Examples.NestedValueNotRescanned | i18n.go:210-225 | a nested key whose own text is `{0}` is inserted as `{0}`, even when it names itself |

## Left out

- Loading the dictionary (`Provision` and `loadDictionary`, i18n.go:87-106 and i18n.go:240-257) is file I/O and JSON decoding. The dictionary is an input value of every function instead.
- The read lock around a lookup (i18n.go:132-133) is concurrency plumbing. The dictionary is never written after loading, so each lookup is a pure function of it.
- The log messages for a missing key, a missing language and the English fallback (i18n.go:139-166) do not affect the returned value.
- The error result of the template function is always nil. `Resolver.Translate` returns only the string.
- `fmt.Sprint` of values that are neither strings nor integers (floats such as `19.99`, booleans, nil) is not modelled. Such an argument is `Other(rendered)`, carrying the text `fmt.Sprint` would give it. So the float scenarios of i18n_test.go:311-330 and i18n_test.go:422-441 are not restated.
- A value of a named string type is not a `string` to the type assertion `arg.(string)`, and goes through `fmt.Sprint`. The model has no such type: it is one more `Other` value.
- `Decimal.Atoi` assumes a 64-bit `int`. On a 32-bit platform the range error begins above 2147483647, which changes nothing, because no argument list is that long.
- `Interpolation.Replace`: its ensures for placeholders assumes at most `MaxInt` arguments, the most a Go slice can hold; the body still models the range error of `strconv.Atoi`.
- The `Caddyfile` directive parser (`caddyfile.go`), module registration, `CaddyModule` and the template function map are host-framework wiring.
- Strings are sequences of characters rather than bytes. The pattern and the prefix are ASCII, so byte and character positions lead to the same cuts.
