/**
 * The bottom-up fold from a recognised line to the AST: one rule per grammar
 * production, each turning its already-folded children into one value. A
 * production is given by the folded values of the children its rule reads
 * (the recognition of raw text is the grammar's job and is not modelled).
 * Canonicalisation happens here: legacy alignment is renumbered onto the
 * numpad, karaoke durations are scaled to hundredths, a BGR colour triple is
 * reordered into red/green/blue fields, and optional groups become present
 * or absent fields.
 */
module AssFold {
  import opened AssAst
  import opened Format

  // ---------------------------------------------------------------------------
  // Leaf rules: numbers and byte values read from their digit text

  /** `bool(int(text))`: true exactly when some digit is not zero. */
  function VisitBoolean(digits: string): (b: bool)
    requires IsDigits(digits)
    ensures b <==> exists i :: 0 <= i < |digits| && digits[i] != '0'
  {
    ReadDecimalZero(digits);
    ReadDecimal(digits) != 0
  }

  lemma {:induction false} ReadDecimalZero(s: string)
    requires forall i :: 0 <= i < |s| ==> IsDecimalDigit(s[i])
    ensures ReadDecimal(s) == 0 <==> forall i :: 0 <= i < |s| ==> s[i] == '0'
  {
    if |s| > 0 {
      var p := s[..|s| - 1];
      ReadDecimalZero(p);
      assert forall i :: 0 <= i < |p| ==> p[i] == s[i];
    }
  }

  /** `int(text)` on an integer literal (`integer` and `integer_positive`). */
  function VisitInteger(text: string): (n: int)
    requires IsIntegerText(text)
    ensures IsDigits(text) ==> n >= 0
    ensures text[0] == '-' ==> n <= 0
  {
    ReadInteger(text)
  }

  /** A decimal byte value: its digits read in base 10. */
  function VisitByteValueInt(digits: string): (b: nat)
    requires IsDigits(digits)
    ensures IsCanonicalDigits(digits) ==> IntToString(b) == digits
  {
    if IsCanonicalDigits(digits) then IntToStringOfReadDecimal(digits); ReadDecimal(digits)
    else ReadDecimal(digits)
  }

  /**
   * A hexadecimal byte value: its digits read in base 16. Two digits always
   * give a byte, and two upper-case digits are exactly what `{:02X}` writes
   * for that byte.
   */
  function VisitByteValueHex(digits: string): (b: nat)
    requires IsHexDigits(digits)
    ensures |digits| <= 2 ==> b <= 255
    ensures |digits| == 2 && IsUpperHexDigit(digits[0]) && IsUpperHexDigit(digits[1]) ==> Hex02(b) == digits
  {
    assert Pow(16, 2) == 256 && Pow(16, 1) == 16;
    assert |digits| == 2 && IsUpperHexDigit(digits[0]) && IsUpperHexDigit(digits[1]) ==> Hex02(ReadHex(digits)) == digits by {
      if |digits| == 2 && IsUpperHexDigit(digits[0]) && IsUpperHexDigit(digits[1]) { TwoUpperHexDigits(digits); }
    }
    ReadHex(digits)
  }

  lemma DigitCharOfUpperHex(c: char)
    requires IsUpperHexDigit(c)
    ensures DigitChar(HexDigitValue(c)) == c
  {
    var d := HexDigitValue(c);
    assert "0123456789ABCDEF"[d] == c;
  }

  lemma TwoUpperHexDigits(s: string)
    requires |s| == 2 && IsUpperHexDigit(s[0]) && IsUpperHexDigit(s[1])
    ensures Hex02(ReadHex(s)) == s
  {
    var hi, lo := HexDigitValue(s[0]), HexDigitValue(s[1]);
    assert s[..1][..0] == [];
    assert ReadHex(s[..1]) == hi;
    var b := ReadHex(s);
    assert b == 16 * hi + lo;
    assert b / 16 == hi && b % 16 == lo;
    Hex02OfByte(b);
    DigitCharOfUpperHex(s[0]);
    DigitCharOfUpperHex(s[1]);
  }

  /** The three byte values of `&H..&` in the order they are written: blue, green, red. */
  type ColorValue = (int, int, int)

  function VisitColorValue(first: int, second: int, third: int): (c: ColorValue)
    ensures c.0 == first && c.1 == second && c.2 == third
  {
    (first, second, third)
  }

  // ---------------------------------------------------------------------------
  // Tag rules with a canonicalisation step

  /**
   * `color-primary` .. `color-shadow` (target 1..4): the written triple is
   * blue, green, red, so red is the third byte and blue the first. The rule
   * records neither a target nor a short spelling; the model takes the target
   * from the rule and always chooses the long spelling `\Nc`.
   */
  function VisitColor(target: int, value: ColorValue): (r: Item)
    ensures r.Color? && r.target == target && !r.short
    ensures r.red == Some(value.2) && r.green == Some(value.1) && r.blue == Some(value.0)
  {
    Color(Some(value.2), Some(value.1), Some(value.0), target, false)
  }

  /** `alpha-all` (target 0) .. `alpha-shadow` (target 4): the value is always present. */
  function VisitAlpha(target: int, value: int): (r: Item)
    ensures r.Alpha? && r.target == target && r.alpha == Some(value)
  {
    Alpha(Some(value), target)
  }

  /** The child of `\b`: a boolean toggle or a weight. */
  datatype BoldArg = Toggle(on: bool) | Weight(w: int)

  /** Bold is a toggle or a weight, never both. */
  function VisitBold(arg: BoldArg): (r: Item)
    ensures r.Bold?
    ensures r.weight.Some? <==> arg.Weight?
    ensures r.boldEnabled.Some? <==> arg.Toggle?
    ensures !(r.weight.Some? && r.boldEnabled.Some?)
    ensures arg.Weight? ==> r.weight == Some(arg.w)
    ensures arg.Toggle? ==> r.boldEnabled == Some(arg.on)
  {
    match arg
    case Toggle(on) => Bold(None, Some(on))
    case Weight(w) => Bold(Some(w), None)
  }

  /** Karaoke durations are written in tenths of a second and stored in hundredths. */
  function VisitKaraoke(kind: KaraokeKind, tenths: int): (r: Item)
    ensures r.Karaoke? && r.kind == kind
    ensures r.duration % 10 == 0 && r.duration / 10 == tenths
  {
    Karaoke(kind, tenths * 10)
  }

  /** `\an<digit>`: the digit is already on the numpad scheme. */
  function VisitAlignment(digits: string): (r: Item)
    requires IsDigits(digits)
    ensures r.Alignment? && !r.legacy
    ensures IsCanonicalDigits(digits) ==> IntToString(r.alignment) == digits
    ensures digits in {"1", "2", "3", "4", "5", "6", "7", "8", "9"} ==> 1 <= r.alignment <= 9
  {
    if IsCanonicalDigits(digits) then
      IntToStringOfReadDecimal(digits);
      Alignment(ReadDecimal(digits), false)
    else
      Alignment(ReadDecimal(digits), false)
  }

  /**
   * The nine codes of the legacy `\a` scheme: 1..3 along the bottom, 5..7
   * along the top and 9..11 across the middle, left to right in each row.
   */
  const LegacyCodes: set<int> := {1, 2, 3, 5, 6, 7, 9, 10, 11}

  /** The legacy renumbering: codes from 9 lose two, codes from 5 lose one. */
  function LegacyToNumpad(code: int): (a: int)
    ensures code in LegacyCodes ==> 1 <= a <= 9
  {
    if code >= 9 then code - 2
    else if code >= 5 then code - 1
    else code
  }

  /** Distinct legacy codes land on distinct numpad positions. */
  lemma LegacyToNumpadInjective(c1: int, c2: int)
    requires c1 in LegacyCodes && c2 in LegacyCodes
    requires LegacyToNumpad(c1) == LegacyToNumpad(c2)
    ensures c1 == c2
  {
  }

  /** The screen row of a legacy code: 0 bottom, 1 middle, 2 top. */
  function LegacyRow(code: int): int {
    if code >= 9 then 1 else if code >= 5 then 2 else 0
  }

  /** The screen column of a legacy code: 0 left, 1 centre, 2 right. */
  function LegacyColumn(code: int): int {
    (code - 1) % 4
  }

  /** The screen row of a numpad position: 0 bottom, 1 middle, 2 top. */
  function NumpadRow(a: int): int {
    (a - 1) / 3
  }

  /** The screen column of a numpad position: 0 left, 1 centre, 2 right. */
  function NumpadColumn(a: int): int {
    (a - 1) % 3
  }

  /**
   * The renumbering as written moves the top row to the middle and the
   * middle row to the top: `\a6` (top centre) becomes numpad 5 (middle centre).
   */
  lemma LegacyToNumpadSwapsRows()
    ensures LegacyRow(6) == 2 && LegacyToNumpad(6) == 5 && NumpadRow(5) == 1
    ensures LegacyRow(10) == 1 && LegacyToNumpad(10) == 8 && NumpadRow(8) == 2
  {
  }

  /** A renumbering that keeps each legacy code's place on the screen. */
  function LegacyToNumpadByPosition(code: int): (a: int)
    ensures code in LegacyCodes ==> 1 <= a <= 9
    ensures code in LegacyCodes ==> NumpadRow(a) == LegacyRow(code) && NumpadColumn(a) == LegacyColumn(code)
  {
    if code >= 9 then code - 5
    else if code >= 5 then code + 2
    else code
  }

  /** The position-keeping renumbering is one-to-one on the legacy codes. */
  lemma LegacyToNumpadByPositionInjective(c1: int, c2: int)
    requires c1 in LegacyCodes && c2 in LegacyCodes
    requires LegacyToNumpadByPosition(c1) == LegacyToNumpadByPosition(c2)
    ensures c1 == c2
  {
  }

  /** `\a<code>`: the legacy code is renumbered onto the numpad and the spelling is remembered. */
  function VisitAlignmentLegacy(digits: string): (r: Item)
    requires IsDigits(digits)
    ensures r.Alignment? && r.legacy
    ensures r.alignment == LegacyToNumpad(ReadDecimal(digits))
    ensures ReadDecimal(digits) in LegacyCodes ==> 1 <= r.alignment <= 9
  {
    Alignment(LegacyToNumpad(ReadDecimal(digits)), true)
  }

  /** `\q<digits>` */
  function VisitWrapStyle(digits: string): (r: Item)
    requires IsDigits(digits)
    ensures r.WrapStyle? && r.value >= 0
    ensures IsCanonicalDigits(digits) ==> IntToString(r.value) == digits
  {
    assert IsCanonicalDigits(digits) ==> IntToString(ReadDecimal(digits)) == digits by {
      if IsCanonicalDigits(digits) { IntToStringOfReadDecimal(digits); }
    }
    WrapStyle(ReadDecimal(digits))
  }

  /** `\r[style]`: the style is absent exactly when the optional group matched nothing. */
  function VisitResetStyle(style: Opt<string>): (r: Item)
    ensures r.ResetStyle?
    ensures r.style.None? <==> style == []
    ensures style != [] ==> r.style == Some(style[0])
  {
    ResetStyle(if style != [] then Some(style[0]) else None)
  }

  /** `\move(x1,y1,x2,y2[,t1,t2])`: both times come from one optional group. */
  function VisitMovement(x1: int, y1: int, x2: int, y2: int, times: Opt<(int, int)>): (r: Item)
    ensures r.Move? && r.x1 == x1 && r.y1 == y1 && r.x2 == x2 && r.y2 == y2
    ensures r.start.Some? <==> r.end.Some?
    ensures r.start.Some? <==> times != []
    ensures times != [] ==> r.start == Some(times[0].0) && r.end == Some(times[0].1)
  {
    Move(x1, y1, x2, y2,
      if times != [] then Some(times[0].0) else None,
      if times != [] then Some(times[0].1) else None)
  }

  /**
   * The nested-list flattening applied to the repeated tag group of an
   * animation: the groups concatenated in order.
   */
  function Flatten(groups: seq<seq<Item>>): (items: seq<Item>)
    ensures groups == [] ==> items == []
    ensures forall i, j :: 0 <= i < |groups| && 0 <= j < |groups[i]| ==> groups[i][j] in items
  {
    if groups == [] then []
    else
      var init := groups[..|groups| - 1];
      assert forall i :: 0 <= i < |init| ==> init[i] == groups[i];
      Flatten(init) + groups[|groups| - 1]
  }

  lemma {:induction false} FlattenAppend(g1: seq<seq<Item>>, g2: seq<seq<Item>>)
    ensures Flatten(g1 + g2) == Flatten(g1) + Flatten(g2)
  {
    if g2 != [] {
      var g := g1 + g2;
      assert g[..|g| - 1] == g1 + g2[..|g2| - 1];
      FlattenAppend(g1, g2[..|g2| - 1]);
    } else {
      assert g1 + g2 == g1;
    }
  }

  /** When every repetition yields one tag, the flattened tags are those tags in order. */
  lemma {:induction false} FlattenSingletons(tags: seq<Item>)
    ensures Flatten(seq(|tags|, i requires 0 <= i < |tags| => [tags[i]])) == tags
  {
    var groups := seq(|tags|, i requires 0 <= i < |tags| => [tags[i]]);
    if tags != [] {
      var init := tags[..|tags| - 1];
      FlattenSingletons(init);
      assert groups[..|groups| - 1] == seq(|init|, i requires 0 <= i < |init| => [init[i]]);
      assert tags == init + [tags[|tags| - 1]];
    }
  }

  /**
   * `\t([t1,t2,][accel,]tags)`: both times come from one optional group, the
   * acceleration from another, and the nested tags keep their order.
   */
  function VisitAnimation(times: Opt<(int, int)>, accel: Opt<int>, tags: seq<seq<Item>>): (r: Item)
    ensures r.Animation?
    ensures r.start.Some? <==> r.end.Some?
    ensures r.start.Some? <==> times != []
    ensures times != [] ==> r.start == Some(times[0].0) && r.end == Some(times[0].1)
    ensures r.acceleration.Some? <==> accel != []
    ensures accel != [] ==> r.acceleration == Some(accel[0])
    ensures r.tags == Flatten(tags)
  {
    Animation(
      if times != [] then Some(times[0].0) else None,
      if times != [] then Some(times[0].1) else None,
      if accel != [] then Some(accel[0]) else None,
      Flatten(tags))
  }

  /** `str.startswith` */
  predicate StartsWith(s: string, prefix: string) {
    |prefix| <= |s| && s[..|prefix|] == prefix
  }

  /** `\clip(...)` / `\iclip(...)` with four coordinates: inverse when the keyword starts with `i`. */
  function VisitClipRectangle(keyword: string, x1: int, y1: int, x2: int, y2: int): (r: Item)
    ensures r.ClipRectangle? && r.x1 == x1 && r.y1 == y1 && r.x2 == x2 && r.y2 == y2
    ensures r.inverse <==> |keyword| > 0 && keyword[0] == 'i'
  {
    ClipRectangle(x1, y1, x2, y2, StartsWith(keyword, "i"))
  }

  /** `\clip([scale,]commands)` / `\iclip(...)`: inverse when the keyword starts with `i`. */
  function VisitClipVector(keyword: string, scale: Opt<int>, commands: string): (r: Item)
    ensures r.ClipVector? && r.path == commands
    ensures r.inverse <==> |keyword| > 0 && keyword[0] == 'i'
    ensures r.drawingScale.Some? <==> scale != []
    ensures scale != [] ==> r.drawingScale == Some(scale[0])
  {
    ClipVector(if scale != [] then Some(scale[0]) else None, commands, StartsWith(keyword, "i"))
  }

  // ---------------------------------------------------------------------------
  // All productions that fold to one item

  datatype Production =
    | PlainTextP(text: string)
    | CommentP(text: string)
      // one `{...}` block holding the tags folded inside it
    | ChunkP(tags: seq<Item>)
    | ItalicsP(flag: bool)
    | BoldP(arg: BoldArg)
    | UnderlineP(flag: bool)
    | StrikeoutP(flag: bool)
    | BorderP(n: int)
    | BorderXP(n: int)
    | BorderYP(n: int)
    | ShadowP(n: int)
    | ShadowXP(n: int)
    | ShadowYP(n: int)
    | BlurEdgesP(n: int)
    | BlurEdgesGaussP(n: int)
    | FontNameP(name: string)
    | FontEncodingP(n: int)
    | FontSizeP(n: int)
    | FontScaleXP(n: int)
    | FontScaleYP(n: int)
    | LetterSpacingP(n: int)
    | RotationXP(n: int)
    | RotationYP(n: int)
    | RotationZP(n: int)
    | RotationOriginP(x: int, y: int)
    | ShearXP(n: int)
    | ShearYP(n: int)
      // the four colour rules, told apart by target 1..4
    | ColorP(target: int, color: ColorValue)
      // the five alpha rules, told apart by target 0..4
    | AlphaP(target: int, n: int)
    | KaraokeP(kind: KaraokeKind, n: int)
    | AlignmentP(digits: string)
    | AlignmentLegacyP(digits: string)
    | WrapStyleP(digits: string)
    | ResetStyleP(style: Opt<string>)
    | PositionP(x: int, y: int)
    | MovementP(x1: int, y1: int, x2: int, y2: int, times: Opt<(int, int)>)
    | FadeSimpleP(start: int, end: int)
    | FadeComplexP(a1: int, a2: int, a3: int, t1: int, t2: int, t3: int, t4: int)
    | AnimationP(times: Opt<(int, int)>, accel: Opt<int>, groups: seq<seq<Item>>)
    | ClipRectangleP(keyword: string, x1: int, y1: int, x2: int, y2: int)
    | ClipVectorP(keyword: string, scale: Opt<int>, commands: string)
    | DrawingModeP(n: int)
    | BaselineOffsetP(n: int)

  /** What the grammar guarantees of a production's children. */
  predicate Recognised(p: Production) {
    match p
    case ChunkP(tags) => forall i :: 0 <= i < |tags| ==> IsTag(tags[i]) && Normalized(tags[i])
    case ColorP(target, c) =>
      1 <= target <= 4 && 0 <= c.0 <= 255 && 0 <= c.1 <= 255 && 0 <= c.2 <= 255
    case AlphaP(target, n) => 0 <= target <= 4 && 0 <= n <= 255
    case FadeComplexP(a1, a2, a3, _, _, _, _) => IsByte(a1) && IsByte(a2) && IsByte(a3)
    case AlignmentP(digits) => digits in {"1", "2", "3", "4", "5", "6", "7", "8", "9"}
    case AlignmentLegacyP(digits) => digits in {"1", "2", "3", "5", "6", "7", "9", "10", "11"}
    case WrapStyleP(digits) => IsDigits(digits)
    case AnimationP(_, _, groups) =>
      forall i, j :: 0 <= i < |groups| && 0 <= j < |groups[i]| ==>
        IsTag(groups[i][j]) && Normalized(groups[i][j])
    case ClipRectangleP(keyword, _, _, _, _) => keyword in {"clip", "iclip"}
    case ClipVectorP(keyword, _, _) => keyword in {"clip", "iclip"}
    case _ => true
  }

  /**
   * The fold of one production. Plain text, a comment and a brace block fold
   * to a `Text`, a `Comment` and a `TagList`, and nothing else folds to one
   * of those, so every other production folds to a tag.
   */
  function Visit(p: Production): (r: Item)
    requires Recognised(p)
    ensures r.Text? <==> p.PlainTextP?
    ensures r.Comment? <==> p.CommentP?
    ensures r.TagList? <==> p.ChunkP?
  {
    match p
    case PlainTextP(text) => Text(text)
    case CommentP(text) => Comment(text)
    case ChunkP(tags) => TagList(tags)
    case ItalicsP(flag) => Italic(flag)
    case BoldP(arg) => VisitBold(arg)
    case UnderlineP(flag) => Underline(flag)
    case StrikeoutP(flag) => Strikeout(flag)
    case BorderP(n) => Border(n)
    case BorderXP(n) => XBorder(n)
    case BorderYP(n) => YBorder(n)
    case ShadowP(n) => Shadow(n)
    case ShadowXP(n) => XShadow(n)
    case ShadowYP(n) => YShadow(n)
    case BlurEdgesP(n) => BlurEdges(n)
    case BlurEdgesGaussP(n) => BlurEdgesGauss(n)
    case FontNameP(name) => FontName(name)
    case FontEncodingP(n) => FontEncoding(n)
    case FontSizeP(n) => FontSize(n)
    case FontScaleXP(n) => FontXScale(n)
    case FontScaleYP(n) => FontYScale(n)
    case LetterSpacingP(n) => LetterSpacing(n)
    case RotationXP(n) => XRotation(n)
    case RotationYP(n) => YRotation(n)
    // the rule does not record whether `\fr` or `\frz` was written; the model chooses `\frz`
    case RotationZP(n) => ZRotation(n, false)
    case RotationOriginP(x, y) => RotationOrigin(x, y)
    case ShearXP(n) => XShear(n)
    case ShearYP(n) => YShear(n)
    case ColorP(target, c) => VisitColor(target, c)
    case AlphaP(target, n) => VisitAlpha(target, n)
    case KaraokeP(kind, n) => VisitKaraoke(kind, n)
    case AlignmentP(digits) => VisitAlignment(digits)
    case AlignmentLegacyP(digits) => VisitAlignmentLegacy(digits)
    case WrapStyleP(digits) => VisitWrapStyle(digits)
    case ResetStyleP(style) => VisitResetStyle(style)
    case PositionP(x, y) => Position(x, y)
    case MovementP(x1, y1, x2, y2, times) => VisitMovement(x1, y1, x2, y2, times)
    case FadeSimpleP(start, end) => Fade(start, end)
    case FadeComplexP(a1, a2, a3, t1, t2, t3, t4) => FadeComplex(a1, a2, a3, t1, t2, t3, t4)
    case AnimationP(times, accel, groups) => VisitAnimation(times, accel, groups)
    case ClipRectangleP(keyword, x1, y1, x2, y2) => VisitClipRectangle(keyword, x1, y1, x2, y2)
    case ClipVectorP(keyword, scale, commands) => VisitClipVector(keyword, scale, commands)
    case DrawingModeP(n) => DrawingMode(n)
    case BaselineOffsetP(n) => BaselineOffset(n)
  }

  // ---------------------------------------------------------------------------
  // The invariants every folded item satisfies

  /**
   * The AST invariants the fold establishes: bytes in range, alignment on the
   * numpad, durations a whole number of tenths, bold a toggle or a weight,
   * times paired, long colour and rotation spellings, and nested tags that
   * are themselves tags and normalised.
   */
  predicate Normalized(item: Item) {
    match item
    case TagList(tags) => forall i :: 0 <= i < |tags| ==> IsTag(tags[i]) && Normalized(tags[i])
    case Animation(start, end, _, tags) =>
      start.Some? == end.Some? &&
      forall i :: 0 <= i < |tags| ==> IsTag(tags[i]) && Normalized(tags[i])
    case Alignment(a, legacy) => 1 <= a <= 9
    case WrapStyle(v) => v >= 0
    case Move(_, _, _, _, start, end) => start.Some? == end.Some?
    case Color(red, green, blue, target, short) =>
      red.Some? && green.Some? && blue.Some? &&
      IsByte(red.value) && IsByte(green.value) && IsByte(blue.value) &&
      1 <= target <= 4 && !short
    case Alpha(alpha, target) => alpha.Some? && IsByte(alpha.value) && 0 <= target <= 4
    case FadeComplex(alpha1, alpha2, alpha3, _, _, _, _) => IsByte(alpha1) && IsByte(alpha2) && IsByte(alpha3)
    case Karaoke(_, duration) => duration % 10 == 0
    case Bold(weight, enabled) => weight.Some? != enabled.Some?
    case ZRotation(_, short) => !short
    case _ => true
  }

  /** Every recognised production folds to a normalised item. */
  lemma FoldNormalizes(p: Production)
    requires Recognised(p)
    ensures Normalized(Visit(p))
  {
    if p.AnimationP? {
      FlattenNormalized(p.groups);
    } else if p.ColorP? || p.AlphaP? || p.KaraokeP? || p.AlignmentP? || p.AlignmentLegacyP? || p.BoldP? {
      CanonicalFoldNormalizes(p);
    }
  }

  /** The rules with a canonicalisation step establish the invariants of their kind. */
  lemma CanonicalFoldNormalizes(p: Production)
    requires p.ColorP? || p.AlphaP? || p.KaraokeP? || p.AlignmentP? || p.AlignmentLegacyP? || p.BoldP?
    requires Recognised(p)
    ensures Normalized(Visit(p))
  {
    if p.AlignmentLegacyP? {
      var d := p.digits;
      assert |d| == 2 ==> d[..1] == [d[0]] && d[..1][..0] == [];
      assert ReadDecimal(d) in LegacyCodes;
    }
  }

  /** Flattening keeps "every item is a normalised tag". */
  lemma {:induction false} FlattenNormalized(groups: seq<seq<Item>>)
    requires forall i, j :: 0 <= i < |groups| && 0 <= j < |groups[i]| ==>
      IsTag(groups[i][j]) && Normalized(groups[i][j])
    ensures forall k :: 0 <= k < |Flatten(groups)| ==>
      IsTag(Flatten(groups)[k]) && Normalized(Flatten(groups)[k])
  {
    if groups != [] {
      var init := groups[..|groups| - 1];
      assert forall i, j :: 0 <= i < |init| && 0 <= j < |init[i]| ==> init[i][j] == groups[i][j];
      FlattenNormalized(init);
      assert Flatten(groups) == Flatten(init) + groups[|groups| - 1];
    }
  }
}
