# Theme loader and dictionary merge

A Dafny model of the non-test logic of the Swift testing tutorial:

- **Theme loader** (`BDDExample/BDDExample/Theme.swift`). A `Theme` is built from a
  JSON document. The mapper takes the object at `defaults.paragraph` and reads
  ten recognised members onto a paragraph style. Each member follows a
  parse-or-keep-default rule:
  - `alignment` and `lineBreakMode` map fixed literals to variants. Any other
    string falls back to natural alignment or word wrapping and logs one line.
  - The four line-height and two paragraph-spacing members are clamped with `max(x, 0)`.
  - `firstLineHeadIndent` and `headIndent` are copied unclamped.
  - A missing member, or one of the wrong JSON type, leaves the initial value
    in place and logs nothing.
  - `loadFromString` gives no theme when encoding fails or the parse is null.
    `loadFromFile` gives no theme only when the file cannot be read.
- **Dictionary merge** (`BDDExample/BDDExample/Libraries/Extensions/DictionaryExtensions.swift`).
  `+` and `+=` perform a right-biased union.

Modules:

- `Wrappers`: `Option`, standing for Swift optionals.
- `JsonTree`: the parsed JSON value, with the three accessors the loader uses.
  These are subscript by key (null for a missing key or a non-object),
  `.string` and `.double`.
- `ThemeLoader`: the key names, the three enumerations and their literals, the
  paragraph style, the per-member readers, the mapper, `init?(json:)` and both loaders.
  Log lines are returned as a `Logged` value rather than written to a logger.
- `ThemeProperties`: lemmas relating several calls, plus concrete documents.
- `DictionaryExtensions`: `Merge` (the meaning of `+`), `MergeAssign` (the `+=`
  loop), `Plus` (copy, then `+=`) and `UpdateAll` (the loop as a fold over entries).

The initial style is the one a fresh `NSMutableParagraphStyle` has:
- natural alignment, word wrapping and natural writing direction;
- every numeric attribute 0.

### Where the code and its tests disagree

The model follows the code:

- `tailIndent` and `writingDirection` are declared keys (`Theme.swift:21,29`).
  The mapper never reads them. The style keeps tail indent 0 and natural
  direction whatever the document says. `ThemeSpec.swift:168-178,324-352`
  expects both to be mapped. `TailIndentAndDirectionNotApplied` shows the
  document those tests use keeps the initial values.
- A log line is written only for an unknown `alignment` or `lineBreakMode` string.
  It is not written for a missing or mistyped member.
- Only the six height and spacing attributes are clamped. Negative indents pass through.
- A file whose content does not parse still gives a theme at the initial style.
  Only `loadFromString` checks for a null parse (`NullParseDiffersByLoader`).

## Model

| member | source | states |
|---|---|---|
| `JsonTree.Member` | BDDExample/BDDExample/Theme.swift:86-88 | subscripting gives the member under the key, and null when the value is not an object or lacks the key |
| `JsonTree.StringValue` | BDDExample/BDDExample/Theme.swift:94 | `.string` is present exactly for a JSON string and is that string |
| `JsonTree.NumberValue` | BDDExample/BDDExample/Theme.swift:113 | `.double` is present exactly for a JSON number and is that number |
| `ThemeLoader.AlignmentFromRaw` | BDDExample/BDDExample/Theme.swift:32-38 | a recognised string gives the variant whose literal it is; None exactly when no alignment has that literal |
| `ThemeLoader.WrappingFromRaw` | BDDExample/BDDExample/Theme.swift:40-43 | the same for the two line-break literals |
| `ThemeLoader.DirectionFromRaw` | BDDExample/BDDExample/Theme.swift:45-49 | the same for the three writing-direction literals |
| `ThemeLoader.LiteralsRoundTrip` | BDDExample/BDDExample/Theme.swift:32-49 | parsing each variant's literal gives that variant back, for all three enumerations |
| `ThemeLoader.ReadAlignment` | BDDExample/BDDExample/Theme.swift:94-111 | a non-string keeps the current alignment silently; a known literal selects its variant silently; any other string gives natural alignment and exactly one warning naming the string |
| `ThemeLoader.ReadLineBreakMode` | BDDExample/BDDExample/Theme.swift:123-134 | the same rule for line-break mode, with word wrapping as the fallback |
| `ThemeLoader.ClampNonNegative` | BDDExample/BDDExample/Theme.swift:138 | `max(x, 0)`: never negative, never below x, and either x or 0 |
| `ThemeLoader.ReadIndent` | BDDExample/BDDExample/Theme.swift:113-121 | a number is copied unchanged, negatives included; anything else keeps the current value |
| `ThemeLoader.ReadClamped` | BDDExample/BDDExample/Theme.swift:136-164 | a non-negative number is copied; a negative one gives 0; anything else keeps the current value |
| `ThemeLoader.BuildParagraphStyle` | BDDExample/BDDExample/Theme.swift:91-167 | each of the ten read attributes is determined by its own member (literal or fallback, copied indent, clamped metric); tail indent stays 0 and direction natural; the six metrics are non-negative; the log holds one line per unknown enum string, alignment first |
| `ThemeLoader.ThemeInit` | BDDExample/BDDExample/Theme.swift:85-89 | never fails; the style is the mapping of `defaults.paragraph`; without that object the theme has the initial style and the log is empty |
| `ThemeLoader.LoadFromString` | BDDExample/BDDExample/Theme.swift:66-81 | no theme exactly when encoding fails or the parse is null, each with its log line; otherwise the same result as `init?(json:)` on the parsed document |
| `ThemeLoader.LoadFromFile` | BDDExample/BDDExample/Theme.swift:55-64 | no theme exactly when the file cannot be read, with its log line; otherwise `init?(json:)` of the parse, with no null check |
| `ThemeProperties.AlignmentLiteralSelectsVariant` | BDDExample/BDDExample/Theme.swift:94-106 | each of the five literals selects its alignment without a warning, whatever else the paragraph holds |
| `ThemeProperties.UnknownAlignmentFallsBack` | BDDExample/BDDExample/Theme.swift:107-109 | a string outside the five literals gives natural alignment and exactly one warning |
| `ThemeProperties.NonStringAlignmentKeepsDefault` | BDDExample/BDDExample/Theme.swift:94-95 | a non-string alignment leaves the initial style and logs nothing |
| `ThemeProperties.LineBreakModeLiterals` | BDDExample/BDDExample/Theme.swift:123-134 | "wordWrapping" and "characterWrapping" select their modes; another string gives word wrapping and one warning; a non-string gives the default silently |
| `ThemeProperties.IndentsAreNotClamped` | BDDExample/BDDExample/Theme.swift:113-121 | both indents take any number, negative ones included |
| `ThemeProperties.OnlyReadKeysMatter` | BDDExample/BDDExample/Theme.swift:91-167 | two paragraphs that agree on the ten read members give the same style and log |
| `ThemeProperties.UnreadMemberIgnored` | BDDExample/BDDExample/Theme.swift:91-167 | adding or replacing any other member changes nothing |
| `ThemeProperties.TailIndentAndDirectionIgnored` | BDDExample/BDDExample/Theme.swift:21-29 | the declared `tailIndent` and `writingDirection` members have no effect on the result |
| `ThemeProperties.TailIndentAndDirectionNotApplied` | BDDExample/BDDExampleTests/ThemeSpec.swift:168-172 | a document with tail indent 0.25 and direction "rightToLeft" gives the initial style, not the values the tests expect |
| `ThemeProperties.LeftAlignedDocument` | BDDExample/BDDExampleTests/ThemeSpec.swift:32-52 | `{"defaults":{"paragraph":{"alignment":"left"}}}` gives a left-aligned theme with every other attribute initial and no log |
| `ThemeProperties.MissingParagraphGivesInitialStyle` | BDDExample/BDDExample/Theme.swift:85-89 | a missing or non-object `defaults` or `paragraph` still gives a theme, at the initial style |
| `ThemeProperties.StringAndFileLoadsAgree` | BDDExample/BDDExample/Theme.swift:55-81 | once the parse is not null, loading a string and loading a file with the same bytes give the same theme and log as `init?(json:)` |
| `ThemeProperties.NullParseDiffersByLoader` | BDDExample/BDDExample/Theme.swift:58-59 | content that parses to null gives no theme from a string, but the initial-style theme from a file |
| `DictionaryExtensions.Merge` | BDDExample/BDDExample/Libraries/Extensions/DictionaryExtensions.swift:25-32 | keys are the union of both sides; right-side keys take the right value; left-only keys keep the left value |
| `DictionaryExtensions.MergeAssign` | BDDExample/BDDExample/Libraries/Extensions/DictionaryExtensions.swift:47-50 | the update loop over the right-hand entries produces the same union, with the right side winning |
| `DictionaryExtensions.Plus` | BDDExample/BDDExample/Libraries/Extensions/DictionaryExtensions.swift:28-31 | copying the left side and applying `+=` gives the merge |
| `DictionaryExtensions.UpdateAll` | BDDExample/BDDExample/Libraries/Extensions/DictionaryExtensions.swift:48-49 | folding `updateValue` over entries keeps every key of the start and adds exactly the keys the entries name |
| `DictionaryExtensions.UpdateAllMergesTouched` | BDDExample/BDDExample/Libraries/Extensions/DictionaryExtensions.swift:48-49 | folding over entries of `right` in any order, repeats allowed, merges with the part of `right` they touch |
| `DictionaryExtensions.UpdateAllIsMerge` | BDDExample/BDDExample/Libraries/Extensions/DictionaryExtensions.swift:47-50 | a fold over an enumeration of all of `right` is the merge, whatever the order |
| `DictionaryExtensions.MergeEmptyRight` | BDDExample/BDDExample/Libraries/Extensions/DictionaryExtensions.swift:47-50 | merging with an empty right side returns the left side |
| `DictionaryExtensions.DocumentedExample` | BDDExample/BDDExample/Libraries/Extensions/DictionaryExtensions.swift:13-16 | `["a":"foo"] + ["a":"fee","b":"foo"] == ["a":"fee","b":"foo"]` |
| `DictionaryExtensions.MergeIdempotentRight` | BDDExample/BDDExample/Libraries/Extensions/DictionaryExtensions.swift:25-32 | applying the same right side twice equals applying it once |
| `DictionaryExtensions.MergeAssociative` | BDDExample/BDDExample/Libraries/Extensions/DictionaryExtensions.swift:25-32 | `(a + b) + c == a + (b + c)` |

## Left out

- File reading (`Theme.swift:56`) is I/O. The file's contents are a parameter: `None` when the file cannot be read.
- UTF-8 encoding (`Theme.swift:67`) and the SwiftyJSON parser `JSON(data:)` are library code and not part of this model.
  They are function parameters. A parse failure is modelled as the parser returning null.
  So "badName:badValue" is covered through the null-parse case and not as a literal string.
- SwiftyJSON's `.string` and `.double` are modelled as "strings only" and "numbers only".
  Library edge cases, such as booleans stored as numbers, are not modelled.
- `NSParagraphStyle` and `CGFloat` become a plain record over `real`, so there is no floating-point rounding or NaN.
  Only the two line-break modes the theme can select are variants.
- The logger's output and log levels are left out. Log lines are returned as data, without the `json.description` text.
- `+` and `+=` are over immutable Dafny maps. "`+` does not modify its left operand" therefore holds by construction.
  The in-place update of `+=` is a method returning the updated map.
  `MergeAssign` picks keys in an unspecified order, standing for the dictionary's iteration order.
- The test suites are evidence of intended behaviour only. They are not modelled.
