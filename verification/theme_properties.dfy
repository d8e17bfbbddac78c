/**
  Properties of the theme loader that relate several calls or name concrete
  documents: which literals select which variants, which members are ignored,
  and how the three ways of loading a theme relate.
 */
module ThemeProperties {
  import opened Wrappers
  import opened JsonTree
  import opened ThemeLoader

  /** A paragraph object holding a single member. */
  function Single(key: string, value: Json): Json {
    JObj(map[key := value])
  }

  /** A document shaped `{"defaults": {"paragraph": paragraph}}`. */
  function Document(paragraph: Json): Json {
    JObj(map[DefaultsKey := JObj(map[ParagraphKey := paragraph])])
  }

  /** Each alignment literal selects its own variant and logs nothing,
      whatever else the paragraph holds. */
  lemma AlignmentLiteralSelectsVariant(fields: map<string, Json>, a: TextAlignment)
    ensures var r := BuildParagraphStyle(JObj(fields[AlignmentKey := JStr(AlignmentRaw(a))]));
            r.value.alignment == a && UnknownAlignment(AlignmentRaw(a)) !in r.warnings
  {
  }

  /** A string that is no alignment literal gives natural alignment and
      exactly one warning naming that string. */
  lemma UnknownAlignmentFallsBack(s: string)
    requires !IsAlignmentLiteral(s)
    ensures BuildParagraphStyle(Single(AlignmentKey, JStr(s))) == Logged(InitialStyle, [UnknownAlignment(s)])
  {
  }

  /** A non-string alignment leaves natural alignment in place, silently. */
  lemma NonStringAlignmentKeepsDefault(v: Json)
    requires !v.JStr?
    ensures BuildParagraphStyle(Single(AlignmentKey, v)) == Logged(InitialStyle, [])
  {
  }

  /** "wordWrapping" and "characterWrapping" select their modes silently; any
      other string selects word wrapping with one warning; a non-string
      leaves word wrapping in place with no warning. */
  lemma LineBreakModeLiterals(v: Json)
    ensures BuildParagraphStyle(Single(LineBreakModeKey, JStr("wordWrapping")))
              == Logged(InitialStyle, [])
    ensures BuildParagraphStyle(Single(LineBreakModeKey, JStr("characterWrapping")))
              == Logged(InitialStyle.(lineBreakMode := ByCharWrapping), [])
    ensures v.JStr? && !IsWrappingLiteral(v.s) ==>
              BuildParagraphStyle(Single(LineBreakModeKey, v))
                == Logged(InitialStyle, [UnknownLineBreakMode(v.s)])
    ensures !v.JStr? ==> BuildParagraphStyle(Single(LineBreakModeKey, v)) == Logged(InitialStyle, [])
  {
  }

  /** The indents copy any number, negative ones included. */
  lemma IndentsAreNotClamped(x: real, y: real)
    ensures var r := BuildParagraphStyle(JObj(map[FirstLineHeadIndentKey := JNum(x), HeadIndentKey := JNum(y)]));
            r.value.firstLineHeadIndent == x && r.value.headIndent == y
  {
  }

  /** The result depends on nothing but the ten members the mapper reads. */
  lemma OnlyReadKeysMatter(j1: Json, j2: Json)
    requires forall k :: k in ReadKeys ==> Member(j1, k) == Member(j2, k)
    ensures BuildParagraphStyle(j1) == BuildParagraphStyle(j2)
  {
  }

  /** Adding or replacing a member the mapper does not read changes nothing. */
  lemma UnreadMemberIgnored(fields: map<string, Json>, key: string, v: Json)
    requires key !in ReadKeys
    ensures BuildParagraphStyle(JObj(fields[key := v])) == BuildParagraphStyle(JObj(fields))
  {
  }

  /** `tailIndent` and `writingDirection` are declared keys, but no value under
      them reaches the style. */
  lemma TailIndentAndDirectionIgnored(fields: map<string, Json>, t: Json, w: Json)
    ensures BuildParagraphStyle(JObj(fields[TailIndentKey := t][WritingDirectionKey := w]))
              == BuildParagraphStyle(JObj(fields))
  {
  }

  /** A tail indent of 0.25 and a right-to-left direction in the document
      leave the style's tail indent at 0 and its direction natural. */
  lemma TailIndentAndDirectionNotApplied()
    ensures var r := ThemeInit(Document(JObj(map[TailIndentKey := JNum(0.25), WritingDirectionKey := JStr("rightToLeft")])));
            r.value == Some(Theme(InitialStyle)) && r.warnings == []
  {
  }

  /** The document `{"defaults":{"paragraph":{"alignment":"left"}}}` gives a
      left-aligned theme with every other attribute at its initial value. */
  lemma LeftAlignedDocument()
    ensures ThemeInit(Document(Single(AlignmentKey, JStr("left"))))
              == Logged(Some(Theme(InitialStyle.(alignment := LeftTextAlignment))), [])
  {
  }

  /** A document with no `defaults` member, or whose `defaults` or
      `paragraph` is not an object, still gives a theme, at the initial style. */
  lemma MissingParagraphGivesInitialStyle(json: Json)
    requires !Member(json, DefaultsKey).JObj? || !ParagraphOf(json).JObj?
    ensures ThemeInit(json) == Logged(Some(Theme(InitialStyle)), [])
  {
  }

  /** Loading a string and loading a file with the same bytes give the same
      theme and the same log, once the parse is not null. */
  lemma StringAndFileLoadsAgree(text: string, path: string, encode: string -> Option<Bytes>, parse: Bytes -> Json)
    requires encode(text).Some? && !parse(encode(text).value).JNull?
    ensures LoadFromString(text, encode, parse) == LoadFromFile(path, encode(text), parse)
    ensures LoadFromString(text, encode, parse) == ThemeInit(parse(encode(text).value))
  {
  }

  /** Content that does not parse gives no theme when loaded as a string, but
      the initial-style theme when loaded from a file. */
  lemma NullParseDiffersByLoader(text: string, path: string, encode: string -> Option<Bytes>, parse: Bytes -> Json)
    requires encode(text).Some? && parse(encode(text).value).JNull?
    ensures LoadFromString(text, encode, parse).value == None
    ensures LoadFromFile(path, encode(text), parse) == Logged(Some(Theme(InitialStyle)), [])
  {
  }
}
