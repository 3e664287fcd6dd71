/**
 * The fold and the composer are two halves of one canonicalisation. This
 * module relates them: the legacy alignment renumberings are inverse to each
 * other, composing a folded tag writes the canonical spelling of what was
 * parsed, and every normalised item is the fold of some recognised
 * production (`Unvisit` names one).
 */
module AssRoundTrip {
  import opened AssAst
  import opened Format
  import opened AssFold
  import opened AssComposer
  import opened AssSpelling

  // ---------------------------------------------------------------------------
  // Legacy alignment

  /** Composing renumbers a parsed legacy code back to itself. */
  lemma LegacyRoundTrip(code: int)
    requires code in LegacyCodes
    ensures 1 <= LegacyToNumpad(code) <= 9
    ensures NumpadToLegacy(LegacyToNumpad(code)) == code
  {
  }

  /** Parsing renumbers a composed legacy code back to the numpad position. */
  lemma NumpadRoundTrip(a: int)
    requires 1 <= a <= 9
    ensures NumpadToLegacy(a) in LegacyCodes
    ensures LegacyToNumpad(NumpadToLegacy(a)) == a
  {
  }

  /** The position-keeping renumberings are inverse to each other in both directions. */
  lemma PositionRoundTrip(code: int, a: int)
    requires code in LegacyCodes && 1 <= a <= 9
    ensures NumpadToLegacyByPosition(LegacyToNumpadByPosition(code)) == code
    ensures LegacyToNumpadByPosition(NumpadToLegacyByPosition(a)) == a
  {
  }

  /** Each of the nine legacy spellings is the canonical decimal spelling of its code. */
  lemma LegacyDigits(digits: string)
    requires digits in {"1", "2", "3", "5", "6", "7", "9", "10", "11"}
    ensures IsCanonicalDigits(digits)
    ensures ReadDecimal(digits) in LegacyCodes
  {
    assert digits[..|digits| - 1][..0] == [];
  }

  /** Each numpad digit is the canonical decimal spelling of its position. */
  lemma NumpadDigits(digits: string)
    requires digits in {"1", "2", "3", "4", "5", "6", "7", "8", "9"}
    ensures IsCanonicalDigits(digits)
    ensures 1 <= ReadDecimal(digits) <= 9
  {
  }

  // ---------------------------------------------------------------------------
  // Composing a folded tag writes back what was parsed

  /** `\a<code>` parses and composes back to the same text. */
  lemma AlignmentLegacyWritesBack(digits: string)
    requires digits in {"1", "2", "3", "5", "6", "7", "9", "10", "11"}
    ensures ComposeItem(VisitAlignmentLegacy(digits)) == "\\a" + digits
  {
    LegacyDigits(digits);
    LegacyRoundTrip(ReadDecimal(digits));
    IntToStringOfReadDecimal(digits);
    ComposeLeaf(VisitAlignmentLegacy(digits));
  }

  /** `\an<digit>` parses and composes back to the same text. */
  lemma AlignmentWritesBack(digits: string)
    requires digits in {"1", "2", "3", "4", "5", "6", "7", "8", "9"}
    ensures ComposeItem(VisitAlignment(digits)) == "\\an" + digits
  {
    NumpadDigits(digits);
    ComposeLeaf(VisitAlignment(digits));
  }

  /** `\q<digits>` with canonical digits parses and composes back to the same text. */
  lemma WrapStyleWritesBack(digits: string)
    requires IsCanonicalDigits(digits)
    ensures ComposeItem(VisitWrapStyle(digits)) == "\\q" + digits
  {
    ComposeLeaf(VisitWrapStyle(digits));
  }

  /**
   * A karaoke tag stores ten times its written value and writes the stored
   * value divided by ten, which is the written value again.
   */
  lemma KaraokeWritesBack(kind: KaraokeKind, tenths: int)
    ensures ComposeItem(VisitKaraoke(kind, tenths)) == KaraokeTag(kind) + IntToString(tenths)
  {
    var item := VisitKaraoke(kind, tenths);
    assert item == Karaoke(kind, 10 * tenths);
    FormatTenthsOfTenfold(tenths);
    ComposeLeaf(item);
    assert Prefix(item) == KaraokeTag(kind) + FormatTenths(10 * tenths);
  }

  /** The colour argument of three hex-read bytes is the three digit pairs in the order read. */
  lemma ColorArgumentOfHex(target: int, b: string, g: string, r: string)
    requires |b| == 2 && IsUpperHexDigit(b[0]) && IsUpperHexDigit(b[1])
    requires |g| == 2 && IsUpperHexDigit(g[0]) && IsUpperHexDigit(g[1])
    requires |r| == 2 && IsUpperHexDigit(r[0]) && IsUpperHexDigit(r[1])
    ensures ColorHead(target, false) + HexArgument([VisitByteValueHex(b), VisitByteValueHex(g), VisitByteValueHex(r)])
      == "\\" + IntToString(target) + "c" + "&H" + b + g + r + "&"
  {
    var bv, gv, rv := VisitByteValueHex(b), VisitByteValueHex(g), VisitByteValueHex(r);
    HexBytesOfThree(bv, gv, rv);
    assert HexBytes([bv, gv, rv]) == b + g + r;
    ArgumentRegroup(ColorHead(target, false), b, g, r);
  }

  /** Solver hint: regroups a tag head followed by a `&H..&` argument of one digit pair. */
  lemma SingleArgumentRegroup(head: string, h: string)
    ensures head + ("&H" + h + "&") == head + "&H" + h + "&"
  {
  }

  /** Solver hint: regroups a tag head followed by a `&H..&` argument of three digit pairs. */
  lemma ArgumentRegroup(head: string, b: string, g: string, r: string)
    ensures head + ("&H" + (b + g + r) + "&") == head + "&H" + b + g + r + "&"
  {
  }

  /**
   * A colour written as three upper-case two-digit hex bytes (blue, green,
   * red) parses and composes back to the same digits in the same order.
   */
  lemma ColorWritesBack(target: int, b: string, g: string, r: string)
    requires |b| == 2 && IsUpperHexDigit(b[0]) && IsUpperHexDigit(b[1])
    requires |g| == 2 && IsUpperHexDigit(g[0]) && IsUpperHexDigit(g[1])
    requires |r| == 2 && IsUpperHexDigit(r[0]) && IsUpperHexDigit(r[1])
    ensures ComposeItem(VisitColor(target, VisitColorValue(VisitByteValueHex(b), VisitByteValueHex(g), VisitByteValueHex(r))))
      == "\\" + IntToString(target) + "c" + "&H" + b + g + r + "&"
  {
    var bv, gv, rv := VisitByteValueHex(b), VisitByteValueHex(g), VisitByteValueHex(r);
    ColorArgumentOfHex(target, b, g, r);
    ColorComposes(target, bv, gv, rv);
  }

  /** A folded colour composes to its long head and the `&H..&` argument in blue, green, red order. */
  lemma ColorComposes(target: int, b: int, g: int, r: int)
    ensures ComposeItem(VisitColor(target, VisitColorValue(b, g, r))) == ColorHead(target, false) + HexArgument([b, g, r])
  {
    var item := VisitColor(target, VisitColorValue(b, g, r));
    assert item == Color(Some(r), Some(g), Some(b), target, false);
    assert Prefix(item) == ColorHead(target, false) + HexArgument([b, g, r]);
    ComposeLeaf(item);
  }


  /** The alpha argument of one hex-read byte is its digit pair. */
  lemma AlphaArgumentOfHex(target: int, h: string)
    requires |h| == 2 && IsUpperHexDigit(h[0]) && IsUpperHexDigit(h[1])
    ensures AlphaHead(target) + HexArgument([VisitByteValueHex(h)]) == AlphaHead(target) + "&H" + h + "&"
  {
    HexBytesOfOne(VisitByteValueHex(h));
    assert HexBytes([VisitByteValueHex(h)]) == h;
    SingleArgumentRegroup(AlphaHead(target), h);
  }

  /** An alpha written as one upper-case two-digit hex byte parses and composes back to the same text. */
  lemma AlphaWritesBack(target: int, h: string)
    requires |h| == 2 && IsUpperHexDigit(h[0]) && IsUpperHexDigit(h[1])
    ensures ComposeItem(VisitAlpha(target, VisitByteValueHex(h))) == AlphaHead(target) + "&H" + h + "&"
  {
    var v := VisitByteValueHex(h);
    var item := VisitAlpha(target, v);
    assert item == Alpha(Some(v), target);
    assert Prefix(item) == AlphaHead(target) + HexArgument([v]);
    ComposeLeaf(item);
    AlphaArgumentOfHex(target, h);
  }


  /** A `0`/`1` toggle reads as a boolean that is written back as the same digit, and the other way round. */
  lemma FlagRoundTrip(digit: string, b: bool)
    requires digit == "0" || digit == "1"
    ensures Flag(VisitBoolean(digit)) == digit
    ensures VisitBoolean(Flag(b)) == b
  {
  }

  /** A bold toggle parses and composes back to the same text. */
  lemma BoldToggleWritesBack(digit: string)
    requires digit == "0" || digit == "1"
    ensures ComposeItem(VisitBold(Toggle(VisitBoolean(digit)))) == "\\b" + digit
  {
    FlagRoundTrip(digit, false);
    ComposeLeaf(VisitBold(Toggle(VisitBoolean(digit))));
  }

  /** A bold weight composes back as the weight. */
  lemma BoldWeightWritesBack(weight: int)
    ensures ComposeItem(VisitBold(Weight(weight))) == "\\b" + IntToString(weight)
  {
    var item := VisitBold(Weight(weight));
    assert item == Bold(Some(weight), None);
    assert Prefix(item) == SimpleTag("b", weight);
    assert "\\" + "b" == "\\b";
    ComposeLeaf(item);
  }

  /** `\r` with or without a style name composes back to the same text. */
  lemma ResetStyleWritesBack(style: Opt<string>)
    ensures ComposeItem(VisitResetStyle(style)) == "\\r" + (if style != [] then style[0] else "")
  {
    ComposeLeaf(VisitResetStyle(style));
  }

  /** The clip keyword, `clip` or `iclip`, survives the fold and is written back. */
  lemma ClipWritesBack(keyword: string, x1: int, y1: int, x2: int, y2: int)
    requires keyword in {"clip", "iclip"}
    ensures ComposeItem(VisitClipRectangle(keyword, x1, y1, x2, y2)) == CallTag(keyword, [x1, y1, x2, y2])
  {
    ComposeLeaf(VisitClipRectangle(keyword, x1, y1, x2, y2));
  }

  /** `\move` writes back its two times exactly when the optional group matched. */
  lemma MoveWritesBack(x1: int, y1: int, x2: int, y2: int, times: Opt<(int, int)>)
    ensures ComposeItem(VisitMovement(x1, y1, x2, y2, times))
      == CallTag("move", [x1, y1, x2, y2] + (if times != [] then [times[0].0, times[0].1] else []))
  {
    ComposeLeaf(VisitMovement(x1, y1, x2, y2, times));
  }

  /** The text of an animation's tag groups: each group's tags composed, the groups in order. */
  function ComposeGroups(groups: seq<seq<Item>>): string {
    if groups == [] then ""
    else ComposeGroups(groups[..|groups| - 1]) + ComposeItems(groups[|groups| - 1])
  }

  /** Composing the flattened groups writes each group's tags, group after group. */
  lemma {:induction false} ComposeFlatten(groups: seq<seq<Item>>)
    ensures ComposeItems(Flatten(groups)) == ComposeGroups(groups)
  {
    if groups != [] {
      var init, last := groups[..|groups| - 1], groups[|groups| - 1];
      ComposeFlatten(init);
      assert Flatten(groups) == Flatten(init) + last;
      ComposeItemsAppend(Flatten(init), last);
    }
  }

  /**
   * `\t(` writes back its two times exactly when their group matched, its
   * acceleration exactly when that group matched, then every nested tag in
   * the order the groups were parsed, then `)`.
   */
  lemma AnimationWritesBack(times: Opt<(int, int)>, accel: Opt<int>, groups: seq<seq<Item>>)
    ensures ComposeItem(VisitAnimation(times, accel, groups))
      == "\\t("
      + (if times != [] then IntToString(times[0].0) + "," + IntToString(times[0].1) + "," else "")
      + (if accel != [] then IntToString(accel[0]) + "," else "")
      + ComposeGroups(groups)
      + ")"
  {
    var item := VisitAnimation(times, accel, groups);
    ComposeFlatten(groups);
    assert item.Animation? && item.tags == Flatten(groups);
    assert HasTags(item) && Suffix(item) == ")";
    assert Prefix(item) == AnimationPrefix(item.start, item.end, item.acceleration);
    assert ComposeItem(item) == Prefix(item) + ComposeItems(Flatten(groups)) + ")";
  }

  // ---------------------------------------------------------------------------
  // Every normalised item is the fold of a recognised production

  /** A recognised production that folds to `item` (`FoldOfUnvisit`). */
  function Unvisit(item: Item): (p: Production)
    requires Normalized(item)
  {
    match item
    case Text(text) => PlainTextP(text)
    case Comment(text) => CommentP(text)
    case TagList(tags) => ChunkP(tags)
    case Animation(start, end, acceleration, tags) =>
      AnimationP(if start.Some? then [(start.value, end.value)] else [],
        if acceleration.Some? then [acceleration.value] else [], [tags])
    case BaselineOffset(y) => BaselineOffsetP(y)
    case DrawingMode(scale) => DrawingModeP(scale)
    case Alignment(alignment, legacy) =>
      if legacy then AlignmentLegacyP(IntToString(NumpadToLegacy(alignment)))
      else AlignmentP(IntToString(alignment))
    case Fade(time1, time2) => FadeSimpleP(time1, time2)
    case FadeComplex(alpha1, alpha2, alpha3, time1, time2, time3, time4) =>
      FadeComplexP(alpha1, alpha2, alpha3, time1, time2, time3, time4)
    case Move(x1, y1, x2, y2, start, end) =>
      MovementP(x1, y1, x2, y2, if start.Some? then [(start.value, end.value)] else [])
    case Color(red, green, blue, target, _) => ColorP(target, (blue.value, green.value, red.value))
    case Alpha(alpha, target) => AlphaP(target, alpha.value)
    case ResetStyle(style) => ResetStyleP(if style.Some? then [style.value] else [])
    case Border(size) => BorderP(size)
    case XBorder(size) => BorderXP(size)
    case YBorder(size) => BorderYP(size)
    case Shadow(size) => ShadowP(size)
    case XShadow(size) => ShadowXP(size)
    case YShadow(size) => ShadowYP(size)
    case XRotation(angle) => RotationXP(angle)
    case YRotation(angle) => RotationYP(angle)
    case ZRotation(angle, _) => RotationZP(angle)
    case RotationOrigin(x, y) => RotationOriginP(x, y)
    case Position(x, y) => PositionP(x, y)
    case XShear(value) => ShearXP(value)
    case YShear(value) => ShearYP(value)
    case FontName(name) => FontNameP(name)
    case FontSize(size) => FontSizeP(size)
    case FontEncoding(encoding) => FontEncodingP(encoding)
    case LetterSpacing(spacing) => LetterSpacingP(spacing)
    case FontXScale(scale) => FontScaleXP(scale)
    case FontYScale(scale) => FontScaleYP(scale)
    case BlurEdges(times) => BlurEdgesP(times)
    case BlurEdgesGauss(value) => BlurEdgesGaussP(value)
    case Karaoke(kind, duration) => KaraokeP(kind, duration / 10)
    case Italic(enabled) => ItalicsP(enabled)
    case Underline(enabled) => UnderlineP(enabled)
    case Strikeout(enabled) => StrikeoutP(enabled)
    case WrapStyle(value) => WrapStyleP(IntToString(value))
    case Bold(weight, enabled) => BoldP(if weight.Some? then Weight(weight.value) else Toggle(enabled.value))
    case ClipRectangle(x1, y1, x2, y2, inverse) => ClipRectangleP(if inverse then "iclip" else "clip", x1, y1, x2, y2)
    case ClipVector(drawingScale, path, inverse) =>
      ClipVectorP(if inverse then "iclip" else "clip", if drawingScale.Some? then [drawingScale.value] else [], path)
  }

  /** The nine legacy codes are spelled by `str` as the nine legacy spellings. */
  lemma LegacyCodeSpelling(code: int)
    requires code in LegacyCodes
    ensures IntToString(code) in {"1", "2", "3", "5", "6", "7", "9", "10", "11"}
    ensures ReadDecimal(IntToString(code)) == code
  {
    LegacyCodeReadBack(code);
    if code <= 3 {
      LegacyLowSpelling(code);
    } else if code <= 7 {
      LegacyMiddleSpelling(code);
    } else {
      LegacyHighSpelling(code);
    }
  }

  lemma LegacyLowSpelling(code: int)
    requires code in {1, 2, 3}
    ensures IntToString(code) in {"1", "2", "3", "5", "6", "7", "9", "10", "11"}
  {
    if code == 1 {
      assert IntToString(1) == "1";
    } else if code == 2 {
      assert IntToString(2) == "2";
    } else {
      assert IntToString(3) == "3";
    }
  }

  lemma LegacyMiddleSpelling(code: int)
    requires code in {5, 6, 7}
    ensures IntToString(code) in {"1", "2", "3", "5", "6", "7", "9", "10", "11"}
  {
    if code == 5 {
      assert IntToString(5) == "5";
    } else if code == 6 {
      assert IntToString(6) == "6";
    } else {
      assert IntToString(7) == "7";
    }
  }

  lemma LegacyHighSpelling(code: int)
    requires code in {9, 10, 11}
    ensures IntToString(code) in {"1", "2", "3", "5", "6", "7", "9", "10", "11"}
  {
    if code == 9 {
      assert IntToString(9) == "9";
    } else if code == 10 {
      assert IntToString(10) == "10";
    } else {
      assert IntToString(11) == "11";
    }
  }

  /** A legacy code's spelling reads back as the code. */
  lemma LegacyCodeReadBack(code: int)
    requires code in LegacyCodes
    ensures ReadDecimal(IntToString(code)) == code
  {
    IntToStringOfNat(code);
    ReadDecimalOfDecimalString(code);
  }

  /** Alignment in either scheme comes from a recognised production. */
  lemma UnvisitAlignment(item: Item)
    requires item.Alignment? && Normalized(item)
    ensures Recognised(Unvisit(item)) && Visit(Unvisit(item)) == item
  {
    if item.legacy {
      NumpadRoundTrip(item.alignment);
      LegacyCodeSpelling(NumpadToLegacy(item.alignment));
    } else {
      assert IntToString(item.alignment) == [DigitChar(item.alignment)];
      NumpadDigits(IntToString(item.alignment));
    }
  }

  /** A wrap style is the fold of its canonical spelling. */
  lemma UnvisitWrapStyle(item: Item)
    requires item.WrapStyle? && Normalized(item)
    ensures Recognised(Unvisit(item)) && Visit(Unvisit(item)) == item
  {
    IntToStringOfNat(item.value);
    ReadDecimalOfDecimalString(item.value);
  }

  /** Colour and alpha fields come back in their own places. */
  lemma UnvisitColorAlpha(item: Item)
    requires (item.Color? || item.Alpha?) && Normalized(item)
    ensures Recognised(Unvisit(item)) && Visit(Unvisit(item)) == item
  {
  }

  /** A whole number of tenths comes back from the tenths it was scaled from. */
  lemma UnvisitKaraoke(item: Item)
    requires item.Karaoke? && Normalized(item)
    ensures Recognised(Unvisit(item)) && Visit(Unvisit(item)) == item
  {
    assert item.duration / 10 * 10 == item.duration;
  }

  /** Optional times and style come back present exactly when the field is present. */
  lemma UnvisitOptional(item: Item)
    requires (item.Move? || item.ResetStyle? || item.Bold?) && Normalized(item)
    ensures Recognised(Unvisit(item)) && Visit(Unvisit(item)) == item
  {
  }

  /** Both clips come back with their keyword and optional scale. */
  lemma UnvisitClip(item: Item)
    requires (item.ClipRectangle? || item.ClipVector?) && Normalized(item)
    ensures Recognised(Unvisit(item)) && Visit(Unvisit(item)) == item
  {
    if item.ClipRectangle? {
      UnvisitClipRectangle(item);
    } else {
      UnvisitClipVector(item);
    }
  }

  lemma UnvisitClipRectangle(item: Item)
    requires item.ClipRectangle? && Normalized(item)
    ensures Recognised(Unvisit(item)) && Visit(Unvisit(item)) == item
  {
  }

  lemma UnvisitClipVector(item: Item)
    requires item.ClipVector? && Normalized(item)
    ensures Recognised(Unvisit(item)) && Visit(Unvisit(item)) == item
  {
  }

  /** A brace block and an animation keep their nested tags. */
  lemma UnvisitNested(item: Item)
    requires (item.TagList? || item.Animation?) && Normalized(item)
    ensures Recognised(Unvisit(item)) && Visit(Unvisit(item)) == item
  {
    if item.Animation? {
      assert [item.tags][..0] == [];
      assert Flatten([item.tags]) == item.tags;
    }
  }

  /** Every other item is a field-for-field copy of its production. */
  lemma UnvisitPlain(item: Item)
    requires Normalized(item)
    requires !(item.Alignment? || item.WrapStyle? || item.Color? || item.Alpha? || item.Karaoke?
      || item.Move? || item.ResetStyle? || item.Bold? || item.ClipRectangle? || item.ClipVector?
      || item.TagList? || item.Animation?)
    ensures Recognised(Unvisit(item)) && Visit(Unvisit(item)) == item
  {
  }

  /**
   * The fold is onto the normalised items: each is the fold of a recognised
   * production. Together with `FoldNormalizes`, the normalised items are
   * exactly what the fold can produce.
   */
  lemma FoldOfUnvisit(item: Item)
    requires Normalized(item)
    ensures Recognised(Unvisit(item)) && Visit(Unvisit(item)) == item
  {
    if item.Alignment? {
      UnvisitAlignment(item);
    } else if item.WrapStyle? {
      UnvisitWrapStyle(item);
    } else if item.Color? || item.Alpha? {
      UnvisitColorAlpha(item);
    } else if item.Karaoke? {
      UnvisitKaraoke(item);
    } else if item.Move? || item.ResetStyle? || item.Bold? {
      UnvisitOptional(item);
    } else if item.ClipRectangle? || item.ClipVector? {
      UnvisitClip(item);
    } else if item.TagList? || item.Animation? {
      UnvisitNested(item);
    } else {
      UnvisitPlain(item);
    }
  }
}
