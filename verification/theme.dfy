/**
  The theme loader of the BDD example: it maps the `defaults.paragraph`
  object of a JSON document onto a paragraph style. Every recognised key is
  read with a parse-or-keep-default rule; nothing about a single key can make
  loading fail. Log output is returned as data (`Logged`) instead of being
  written to a global logger.
 */
module ThemeLoader {
  import opened Wrappers
  import opened JsonTree

  // ---------------------------------------------------------------------------
  // JSON key names (the raw values of `Theme.Keys`)

  const DefaultsKey := "defaults"
  const ParagraphKey := "paragraph"
  const AlignmentKey := "alignment"
  const FirstLineHeadIndentKey := "firstLineHeadIndent"
  const HeadIndentKey := "headIndent"
  const TailIndentKey := "tailIndent"
  const LineBreakModeKey := "lineBreakMode"
  const MaximumLineHeightKey := "maximumLineHeight"
  const MinimumLineHeightKey := "minimumLineHeight"
  const LineHeightMultipleKey := "lineHeightMultiple"
  const LineSpacingKey := "lineSpacing"
  const ParagraphSpacingKey := "paragraphSpacing"
  const ParagraphSpacingBeforeKey := "paragraphSpacingBefore"
  const WritingDirectionKey := "writingDirection"

  /** The keys of the paragraph object that the mapper actually looks at.
      `tailIndent` and `writingDirection` are declared but not among them. */
  const ReadKeys: set<string> := {
    AlignmentKey, FirstLineHeadIndentKey, HeadIndentKey, LineBreakModeKey,
    MaximumLineHeightKey, MinimumLineHeightKey, LineHeightMultipleKey,
    LineSpacingKey, ParagraphSpacingKey, ParagraphSpacingBeforeKey
  }

  // ---------------------------------------------------------------------------
  // Style enumerations and their accepted literals

  datatype TextAlignment =
    | LeftTextAlignment
    | CenterTextAlignment
    | RightTextAlignment
    | JustifiedTextAlignment
    | NaturalTextAlignment

  /** Only the two modes the theme can select are modelled. */
  datatype LineBreakMode = ByWordWrapping | ByCharWrapping

  datatype WritingDirection = NaturalDirection | LeftToRight | RightToLeft

  /** The literal that selects each alignment (`AlignmentValues`). */
  function AlignmentRaw(a: TextAlignment): string
  {
    match a
    case LeftTextAlignment => "left"
    case CenterTextAlignment => "center"
    case RightTextAlignment => "right"
    case JustifiedTextAlignment => "justified"
    case NaturalTextAlignment => "natural"
  }

  /** The literal that selects each line-break mode (`WrappingValues`). */
  function WrappingRaw(m: LineBreakMode): string
  {
    match m
    case ByWordWrapping => "wordWrapping"
    case ByCharWrapping => "characterWrapping"
  }

  /** The literal of each writing direction (`DirectionValues`). */
  function DirectionRaw(d: WritingDirection): string
  {
    match d
    case NaturalDirection => "natural"
    case LeftToRight => "leftToRight"
    case RightToLeft => "rightToLeft"
  }

  ghost predicate IsAlignmentLiteral(s: string) {
    exists a :: AlignmentRaw(a) == s
  }

  ghost predicate IsWrappingLiteral(s: string) {
    exists m :: WrappingRaw(m) == s
  }

  ghost predicate IsDirectionLiteral(s: string) {
    exists d :: DirectionRaw(d) == s
  }

  /** The `switch` over the alignment literals: the variant whose literal is
      `s`, or None when `s` is none of them. */
  function AlignmentFromRaw(s: string): (r: Option<TextAlignment>)
    ensures r.Some? ==> AlignmentRaw(r.value) == s
    ensures r.None? <==> !IsAlignmentLiteral(s)
  {
    if s == "left" then Some(LeftTextAlignment)
    else if s == "center" then Some(CenterTextAlignment)
    else if s == "right" then Some(RightTextAlignment)
    else if s == "justified" then Some(JustifiedTextAlignment)
    else if s == "natural" then Some(NaturalTextAlignment)
    else None
  }

  /** The `switch` over the line-break literals. */
  function WrappingFromRaw(s: string): (r: Option<LineBreakMode>)
    ensures r.Some? ==> WrappingRaw(r.value) == s
    ensures r.None? <==> !IsWrappingLiteral(s)
  {
    if s == "wordWrapping" then Some(ByWordWrapping)
    else if s == "characterWrapping" then Some(ByCharWrapping)
    else None
  }

  /** `DirectionValues(rawValue:)`. The mapper never calls it. */
  function DirectionFromRaw(s: string): (r: Option<WritingDirection>)
    ensures r.Some? ==> DirectionRaw(r.value) == s
    ensures r.None? <==> !IsDirectionLiteral(s)
  {
    if s == "natural" then Some(NaturalDirection)
    else if s == "leftToRight" then Some(LeftToRight)
    else if s == "rightToLeft" then Some(RightToLeft)
    else None
  }

  /** Every literal names exactly one variant: parsing a variant's literal
      gives that variant back, for all three enumerations. */
  lemma LiteralsRoundTrip(a: TextAlignment, m: LineBreakMode, d: WritingDirection)
    ensures AlignmentFromRaw(AlignmentRaw(a)) == Some(a)
    ensures WrappingFromRaw(WrappingRaw(m)) == Some(m)
    ensures DirectionFromRaw(DirectionRaw(d)) == Some(d)
  {
  }

  // ---------------------------------------------------------------------------
  // Paragraph style and log

  /** The attributes of `NSParagraphStyle` that a theme can touch, over the reals. */
  datatype ParagraphStyle = ParagraphStyle(
    alignment: TextAlignment,
    firstLineHeadIndent: real,
    headIndent: real,
    tailIndent: real,
    lineBreakMode: LineBreakMode,
    maximumLineHeight: real,
    minimumLineHeight: real,
    lineHeightMultiple: real,
    lineSpacing: real,
    paragraphSpacing: real,
    paragraphSpacingBefore: real,
    baseWritingDirection: WritingDirection)

  /** The style a fresh `NSMutableParagraphStyle` starts from. */
  const InitialStyle := ParagraphStyle(
    NaturalTextAlignment, 0.0, 0.0, 0.0, ByWordWrapping,
    0.0, 0.0, 0.0, 0.0, 0.0, 0.0, NaturalDirection)

  /** The six height and spacing attributes are never negative. */
  predicate NonNegativeMetrics(style: ParagraphStyle) {
    && style.maximumLineHeight >= 0.0
    && style.minimumLineHeight >= 0.0
    && style.lineHeightMultiple >= 0.0
    && style.lineSpacing >= 0.0
    && style.paragraphSpacing >= 0.0
    && style.paragraphSpacingBefore >= 0.0
  }

  datatype Theme = Theme(defaultParagraphStyle: ParagraphStyle)

  /** The error lines the loader writes to its logger. */
  datatype Warning =
    | UnknownAlignment(alignment: string)
    | UnknownLineBreakMode(mode: string)
    | UnreadableFile(path: string)
    | UnencodableString(text: string)
    | UnparsableJson(text: string)

  /** A result together with the log lines produced while computing it. */
  datatype Logged<T> = Logged(value: T, warnings: seq<Warning>)

  // ---------------------------------------------------------------------------
  // Reading single fields

  /** Reads the alignment member. A non-string leaves `current` alone and logs
      nothing; a string selects the variant with that literal, and any other
      string selects natural alignment and logs one warning. */
  function ReadAlignment(field: Json, current: TextAlignment): (r: Logged<TextAlignment>)
    ensures !field.JStr? ==> r == Logged(current, [])
    ensures field.JStr? && IsAlignmentLiteral(field.s) ==>
              AlignmentRaw(r.value) == field.s && r.warnings == []
    ensures field.JStr? && !IsAlignmentLiteral(field.s) ==>
              r == Logged(NaturalTextAlignment, [UnknownAlignment(field.s)])
  {
    match StringValue(field)
    case None => Logged(current, [])
    case Some(s) =>
      match AlignmentFromRaw(s)
      case Some(a) => Logged(a, [])
      case None => Logged(NaturalTextAlignment, [UnknownAlignment(s)])
  }

  /** Reads the line-break member, falling back to word wrapping with one
      warning for an unknown string. */
  function ReadLineBreakMode(field: Json, current: LineBreakMode): (r: Logged<LineBreakMode>)
    ensures !field.JStr? ==> r == Logged(current, [])
    ensures field.JStr? && IsWrappingLiteral(field.s) ==>
              WrappingRaw(r.value) == field.s && r.warnings == []
    ensures field.JStr? && !IsWrappingLiteral(field.s) ==>
              r == Logged(ByWordWrapping, [UnknownLineBreakMode(field.s)])
  {
    match StringValue(field)
    case None => Logged(current, [])
    case Some(s) =>
      match WrappingFromRaw(s)
      case Some(m) => Logged(m, [])
      case None => Logged(ByWordWrapping, [UnknownLineBreakMode(s)])
  }

  /** `max(x, 0.0)`. */
  function ClampNonNegative(x: real): (r: real)
    ensures r >= 0.0 && r >= x
    ensures r == x || r == 0.0
  {
    if x < 0.0 then 0.0 else x
  }

  /** Reads an indent member: any number is taken as it is, negatives
      included; anything else leaves `current`. */
  function ReadIndent(field: Json, current: real): (r: real)
    ensures field.JNum? ==> r == field.n
    ensures !field.JNum? ==> r == current
  {
    NumberValue(field).GetOr(current)
  }

  /** Reads a height or spacing member: a number is clamped at zero from
      below; anything else leaves `current`. */
  function ReadClamped(field: Json, current: real): (r: real)
    ensures field.JNum? ==> r >= 0.0
    ensures field.JNum? && field.n >= 0.0 ==> r == field.n
    ensures field.JNum? && field.n < 0.0 ==> r == 0.0
    ensures !field.JNum? ==> r == current
  {
    match NumberValue(field)
    case Some(x) => ClampNonNegative(x)
    case None => current
  }

  // ---------------------------------------------------------------------------
  // What each attribute must end up as, given the member it is read from

  /** Alignment: the variant named by a known literal, natural otherwise. */
  ghost predicate AlignmentSpec(field: Json, a: TextAlignment) {
    if field.JStr? && IsAlignmentLiteral(field.s) then AlignmentRaw(a) == field.s
    else a == NaturalTextAlignment
  }

  /** Line-break mode: the mode named by a known literal, word wrapping otherwise. */
  ghost predicate LineBreakSpec(field: Json, m: LineBreakMode) {
    if field.JStr? && IsWrappingLiteral(field.s) then WrappingRaw(m) == field.s
    else m == ByWordWrapping
  }

  /** An indent: the number itself, or zero for anything but a number. */
  ghost predicate IndentSpec(field: Json, v: real) {
    if field.JNum? then v == field.n else v == 0.0
  }

  /** A height or spacing: a non-negative number itself, zero otherwise. */
  ghost predicate ClampedSpec(field: Json, v: real) {
    if field.JNum? && field.n >= 0.0 then v == field.n else v == 0.0
  }

  /** The member holds a string that is not one of the alignment literals. */
  ghost predicate RejectsAlignment(field: Json) {
    field.JStr? && !IsAlignmentLiteral(field.s)
  }

  /** The member holds a string that is not one of the line-break literals. */
  ghost predicate RejectsLineBreakMode(field: Json) {
    field.JStr? && !IsWrappingLiteral(field.s)
  }

  // ---------------------------------------------------------------------------
  // The mapper

  /** `buildParagraphStyleFrom(json:)`: starts from the initial style and reads
      the ten recognised members of `json` in source order. */
  function BuildParagraphStyle(json: Json): (r: Logged<ParagraphStyle>)
    ensures AlignmentSpec(Member(json, AlignmentKey), r.value.alignment)
    ensures LineBreakSpec(Member(json, LineBreakModeKey), r.value.lineBreakMode)
    ensures IndentSpec(Member(json, FirstLineHeadIndentKey), r.value.firstLineHeadIndent)
    ensures IndentSpec(Member(json, HeadIndentKey), r.value.headIndent)
    ensures ClampedSpec(Member(json, MaximumLineHeightKey), r.value.maximumLineHeight)
    ensures ClampedSpec(Member(json, MinimumLineHeightKey), r.value.minimumLineHeight)
    ensures ClampedSpec(Member(json, LineHeightMultipleKey), r.value.lineHeightMultiple)
    ensures ClampedSpec(Member(json, LineSpacingKey), r.value.lineSpacing)
    ensures ClampedSpec(Member(json, ParagraphSpacingKey), r.value.paragraphSpacing)
    ensures ClampedSpec(Member(json, ParagraphSpacingBeforeKey), r.value.paragraphSpacingBefore)
    ensures r.value.tailIndent == 0.0
    ensures r.value.baseWritingDirection == NaturalDirection
    ensures NonNegativeMetrics(r.value)
    ensures var fa, fl := Member(json, AlignmentKey), Member(json, LineBreakModeKey);
            r.warnings ==
              (if RejectsAlignment(fa) then [UnknownAlignment(fa.s)] else [])
              + (if RejectsLineBreakMode(fl) then [UnknownLineBreakMode(fl.s)] else [])
  {
    var d := InitialStyle;
    var alignment := ReadAlignment(Member(json, AlignmentKey), d.alignment);
    var lineBreak := ReadLineBreakMode(Member(json, LineBreakModeKey), d.lineBreakMode);
    var style := d.(
      alignment := alignment.value,
      firstLineHeadIndent := ReadIndent(Member(json, FirstLineHeadIndentKey), d.firstLineHeadIndent),
      headIndent := ReadIndent(Member(json, HeadIndentKey), d.headIndent),
      lineBreakMode := lineBreak.value,
      maximumLineHeight := ReadClamped(Member(json, MaximumLineHeightKey), d.maximumLineHeight),
      minimumLineHeight := ReadClamped(Member(json, MinimumLineHeightKey), d.minimumLineHeight),
      lineHeightMultiple := ReadClamped(Member(json, LineHeightMultipleKey), d.lineHeightMultiple),
      lineSpacing := ReadClamped(Member(json, LineSpacingKey), d.lineSpacing),
      paragraphSpacing := ReadClamped(Member(json, ParagraphSpacingKey), d.paragraphSpacing),
      paragraphSpacingBefore := ReadClamped(Member(json, ParagraphSpacingBeforeKey), d.paragraphSpacingBefore));
    Logged(style, alignment.warnings + lineBreak.warnings)
  }

  /** The member the mapper is applied to: `json["defaults"]["paragraph"]`. */
  function ParagraphOf(json: Json): Json {
    Member(Member(json, DefaultsKey), ParagraphKey)
  }

  /** `init?(json:)`: never fails; the theme's style is the mapping of
      `defaults.paragraph`, and a document without that object gives the
      initial style and no log output. */
  function ThemeInit(json: Json): (r: Logged<Option<Theme>>)
    ensures r.value.Some?
    ensures r.value.value.defaultParagraphStyle == BuildParagraphStyle(ParagraphOf(json)).value
    ensures r.warnings == BuildParagraphStyle(ParagraphOf(json)).warnings
    ensures !ParagraphOf(json).JObj? ==> r == Logged(Some(Theme(InitialStyle)), [])
  {
    var style := BuildParagraphStyle(ParagraphOf(json));
    Logged(Some(Theme(style.value)), style.warnings)
  }

  // ---------------------------------------------------------------------------
  // Loading from text and from a file

  type Bytes = seq<bv8>

  /** `loadFromString`: the UTF-8 encoding and the JSON parser are library
      code and arrive as `encode` and `parse`; a parser that fails returns
      null. No theme comes out exactly when encoding fails or the parse is
      null; otherwise the result is `init?(json:)` of the parsed document. */
  function LoadFromString(text: string, encode: string -> Option<Bytes>, parse: Bytes -> Json)
    : (r: Logged<Option<Theme>>)
    ensures r.value.None? <==> encode(text).None? || parse(encode(text).value).JNull?
    ensures r.value.Some? ==> r == ThemeInit(parse(encode(text).value))
    ensures encode(text).None? ==> r.warnings == [UnencodableString(text)]
    ensures encode(text).Some? && parse(encode(text).value).JNull? ==>
              r.warnings == [UnparsableJson(text)]
  {
    match encode(text)
    case None => Logged(None, [UnencodableString(text)])
    case Some(data) =>
      var json := parse(data);
      if json.JNull? then Logged(None, [UnparsableJson(text)])
      else ThemeInit(json)
  }

  /** `loadFromFile`: the file's contents arrive as `contents`, None when
      the file cannot be read. There is no null check on the parse, so only
      an unreadable file gives no theme. */
  function LoadFromFile(path: string, contents: Option<Bytes>, parse: Bytes -> Json)
    : (r: Logged<Option<Theme>>)
    ensures r.value.None? <==> contents.None?
    ensures contents.None? ==> r.warnings == [UnreadableFile(path)]
    ensures contents.Some? ==> r == ThemeInit(parse(contents.value))
  {
    match contents
    case None => Logged(None, [UnreadableFile(path)])
    case Some(data) => ThemeInit(parse(data))
  }
}
