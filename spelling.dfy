/**
 * What the composer's spelling guarantees about the text it writes: braces
 * balance at any nesting depth, comma-separated arguments read back as the
 * fields in order, the colour and alpha arguments are written as two
 * upper-case hex digits per byte exactly when present, and the clip keyword
 * carries the inverse flag.
 */
module AssSpelling {
  import opened AssAst
  import opened Format
  import opened AssComposer

  // ---------------------------------------------------------------------------
  // Character classes of the number spellings

  predicate NoChar(s: string, c: char) {
    c !in s
  }

  /** A decimal spelling holds only digits and a minus sign. */
  lemma IntToStringChars(n: int, c: char)
    requires c != '-' && !IsDecimalDigit(c)
    ensures NoChar(IntToString(n), c)
  {
  }

  lemma Hex02Chars(v: int, c: char)
    requires c != '-' && !IsUpperHexDigit(c)
    ensures NoChar(Hex02(v), c)
  {
  }

  lemma FormatTenthsChars(d: int, c: char)
    requires c != '-' && c != '.' && !IsDecimalDigit(c)
    ensures NoChar(FormatTenths(d), c)
  {
  }

  lemma NoCharConcat(a: string, b: string, c: char)
    requires NoChar(a, c) && NoChar(b, c)
    ensures NoChar(a + b, c)
  {
  }

  // ---------------------------------------------------------------------------
  // Brace balance

  /** Opening braces minus closing braces. */
  function Net(s: string): int {
    if s == [] then 0
    else Net(s[..|s| - 1]) + (if s[|s| - 1] == '{' then 1 else if s[|s| - 1] == '}' then -1 else 0)
  }

  /** Every prefix opens at least as many braces as it closes, and the whole closes them all. */
  predicate Balanced(s: string) {
    Net(s) == 0 && forall k :: 0 <= k <= |s| ==> Net(s[..k]) >= 0
  }

  predicate BraceFree(s: string) {
    NoChar(s, '{') && NoChar(s, '}')
  }

  lemma {:induction false} NetConcat(a: string, b: string)
    ensures Net(a + b) == Net(a) + Net(b)
    decreases |b|
  {
    if b == [] {
      assert a + b == a;
    } else {
      assert (a + b)[..|a + b| - 1] == a + b[..|b| - 1];
      NetConcat(a, b[..|b| - 1]);
    }
  }

  lemma {:induction false} BraceFreeNet(s: string)
    requires BraceFree(s)
    ensures Net(s) == 0
  {
    if s != [] {
      BraceFreeNet(s[..|s| - 1]);
    }
  }

  lemma BraceFreeBalanced(s: string)
    requires BraceFree(s)
    ensures Balanced(s)
  {
    BraceFreeNet(s);
    forall k | 0 <= k <= |s|
      ensures Net(s[..k]) >= 0
    {
      BraceFreeNet(s[..k]);
    }
  }

  lemma BalancedConcat(a: string, b: string)
    requires Balanced(a) && Balanced(b)
    ensures Balanced(a + b)
  {
    NetConcat(a, b);
    forall k | 0 <= k <= |a + b|
      ensures Net((a + b)[..k]) >= 0
    {
      if k <= |a| {
        assert (a + b)[..k] == a[..k];
      } else {
        assert (a + b)[..k] == a + b[..k - |a|];
        NetConcat(a, b[..k - |a|]);
      }
    }
  }

  /** Wrapping balanced text in one more pair of braces keeps it balanced. */
  lemma BalancedWrap(s: string)
    requires Balanced(s)
    ensures Balanced("{" + s + "}")
  {
    var w := "{" + s + "}";
    NetConcat("{" + s, "}");
    NetConcat("{", s);
    assert Net("{") == 1 by {
      assert "{"[..0] == [];
    }
    assert Net("}") == -1 by {
      assert "}"[..0] == [];
    }
    forall k | 0 <= k <= |w|
      ensures Net(w[..k]) >= 0
    {
      if k == 0 {
        assert w[..k] == [];
      } else if k <= |s| + 1 {
        assert w[..k] == "{" + s[..k - 1];
        NetConcat("{", s[..k - 1]);
      } else {
        assert w[..k] == w;
      }
    }
  }

  /** The only braces a line can contain are the ones its tag lists write. */
  predicate LeavesBraceFree(item: Item) {
    match item
    case Text(text) => BraceFree(text)
    case Comment(text) => BraceFree(text)
    case FontName(name) => BraceFree(name)
    case ResetStyle(style) => style.Some? ==> BraceFree(style.value)
    case ClipVector(_, path, _) => BraceFree(path)
    case TagList(tags) => forall i :: 0 <= i < |tags| ==> LeavesBraceFree(tags[i])
    case Animation(_, _, _, tags) => forall i :: 0 <= i < |tags| ==> LeavesBraceFree(tags[i])
    case _ => true
  }

  lemma IntToStringBraceFree(n: int)
    ensures BraceFree(IntToString(n))
  {
    IntToStringChars(n, '{');
    IntToStringChars(n, '}');
  }

  lemma {:induction false} HexBytesBraceFree(bytes: seq<int>)
    ensures BraceFree(HexBytes(bytes))
  {
    if bytes != [] {
      HexBytesBraceFree(bytes[..|bytes| - 1]);
      Hex02Chars(bytes[|bytes| - 1], '{');
      Hex02Chars(bytes[|bytes| - 1], '}');
    }
  }

  lemma FormatTenthsBraceFree(d: int)
    ensures BraceFree(FormatTenths(d))
  {
    FormatTenthsChars(d, '{');
    FormatTenthsChars(d, '}');
  }

  lemma {:induction false} JoinArgsChars(xs: seq<int>, c: char)
    requires xs != [] && c != ',' && c != '-' && !IsDecimalDigit(c)
    ensures NoChar(JoinArgs(xs), c)
  {
    IntToStringChars(xs[|xs| - 1], c);
    if |xs| > 1 {
      JoinArgsChars(xs[..|xs| - 1], c);
    }
  }

  lemma SimpleTagBraceFree(name: string, n: int)
    requires BraceFree(name)
    ensures BraceFree(SimpleTag(name, n))
  {
    IntToStringBraceFree(n);
  }

  lemma CallTagBraceFree(name: string, args: seq<int>)
    requires BraceFree(name) && args != []
    ensures BraceFree(CallTag(name, args))
  {
    JoinArgsChars(args, '{');
    JoinArgsChars(args, '}');
  }

  /** Border tags hold no brace. */
  lemma BorderTagsBraceFree(item: Item)
    requires item.Border? || item.XBorder? || item.YBorder?
    ensures BraceFree(Prefix(item))
  {
    match item
    case Border(size) => SimpleTagBraceFree("bord", size);
    case XBorder(size) => SimpleTagBraceFree("xbord", size);
    case YBorder(size) => SimpleTagBraceFree("ybord", size);
  }

  /** Shadow tags hold no brace. */
  lemma ShadowTagsBraceFree(item: Item)
    requires item.Shadow? || item.XShadow? || item.YShadow?
    ensures BraceFree(Prefix(item))
  {
    match item
    case Shadow(size) => SimpleTagBraceFree("shad", size);
    case XShadow(size) => SimpleTagBraceFree("xshad", size);
    case YShadow(size) => SimpleTagBraceFree("yshad", size);
  }

  /** Baseline and drawing tags hold no brace. */
  lemma DrawingTagsBraceFree(item: Item)
    requires item.BaselineOffset? || item.DrawingMode?
    ensures BraceFree(Prefix(item))
  {
    match item
    case BaselineOffset(y) => SimpleTagBraceFree("pbo", y);
    case DrawingMode(scale) => SimpleTagBraceFree("p", scale);
  }

  /** Rotation tags hold no brace. */
  lemma RotationTagsBraceFree(item: Item)
    requires item.XRotation? || item.YRotation? || item.ZRotation?
    ensures BraceFree(Prefix(item))
  {
    match item
    case XRotation(angle) => SimpleTagBraceFree("frx", angle);
    case YRotation(angle) => SimpleTagBraceFree("fry", angle);
    case ZRotation(angle, short) => SimpleTagBraceFree(if short then "fr" else "frz", angle);
  }

  /** Shear tags hold no brace. */
  lemma ShearTagsBraceFree(item: Item)
    requires item.XShear? || item.YShear?
    ensures BraceFree(Prefix(item))
  {
    match item
    case XShear(value) => SimpleTagBraceFree("fax", value);
    case YShear(value) => SimpleTagBraceFree("fay", value);
  }

  /** Font size, encoding and spacing tags hold no brace. */
  lemma FontTagsBraceFree(item: Item)
    requires item.FontSize? || item.FontEncoding? || item.LetterSpacing?
    ensures BraceFree(Prefix(item))
  {
    match item
    case FontSize(size) => SimpleTagBraceFree("fs", size);
    case FontEncoding(encoding) => SimpleTagBraceFree("fe", encoding);
    case LetterSpacing(spacing) => SimpleTagBraceFree("fsp", spacing);
  }

  /** Font scale tags hold no brace. */
  lemma ScaleTagsBraceFree(item: Item)
    requires item.FontXScale? || item.FontYScale?
    ensures BraceFree(Prefix(item))
  {
    match item
    case FontXScale(scale) => SimpleTagBraceFree("fscx", scale);
    case FontYScale(scale) => SimpleTagBraceFree("fscy", scale);
  }

  /** Blur and wrap-style tags hold no brace. */
  lemma BlurTagsBraceFree(item: Item)
    requires item.BlurEdges? || item.BlurEdgesGauss? || item.WrapStyle?
    ensures BraceFree(Prefix(item))
  {
    match item
    case BlurEdges(times) => SimpleTagBraceFree("be", times);
    case BlurEdgesGauss(value) => SimpleTagBraceFree("blur", value);
    case WrapStyle(value) => SimpleTagBraceFree("q", value);
  }

  /** Alignment and bold tags hold no brace. */
  lemma ChoiceTagsBraceFree(item: Item)
    requires item.Alignment? || item.Bold?
    ensures BraceFree(Prefix(item))
  {
    match item
    case Alignment(alignment, legacy) =>
      SimpleTagBraceFree("a", NumpadToLegacy(alignment));
      SimpleTagBraceFree("an", alignment);
    case Bold(weight, _) =>
      if weight.Some? {
        SimpleTagBraceFree("b", weight.value);
      }
  }

  /** Fade tags hold no brace. */
  lemma FadeTagsBraceFree(item: Item)
    requires item.Fade? || item.FadeComplex?
    ensures BraceFree(Prefix(item))
  {
    match item
    case Fade(time1, time2) => CallTagBraceFree("fad", [time1, time2]);
    case FadeComplex(alpha1, alpha2, alpha3, time1, time2, time3, time4) =>
      CallTagBraceFree("fade", [alpha1, alpha2, alpha3, time1, time2, time3, time4]);
  }

  /** Movement and rectangular clip tags hold no brace. */
  lemma MoveTagsBraceFree(item: Item)
    requires item.Move? || item.ClipRectangle?
    ensures BraceFree(Prefix(item))
  {
    match item
    case Move(x1, y1, x2, y2, start, end) =>
      CallTagBraceFree("move", [x1, y1, x2, y2] + (if start.Some? && end.Some? then [start.value, end.value] else []));
    case ClipRectangle(x1, y1, x2, y2, inverse) => CallTagBraceFree(if inverse then "iclip" else "clip", [x1, y1, x2, y2]);
  }

  /** Origin and position tags hold no brace. */
  lemma PointTagsBraceFree(item: Item)
    requires item.RotationOrigin? || item.Position?
    ensures BraceFree(Prefix(item))
  {
    match item
    case RotationOrigin(x, y) => CallTagBraceFree("org", [x, y]);
    case Position(x, y) => CallTagBraceFree("pos", [x, y]);
  }

  /** A colour tag holds no brace. */
  lemma ColorTagBraceFree(item: Item)
    requires item.Color?
    ensures BraceFree(Prefix(item))
  {
    match item
    case Color(red, green, blue, target, short) =>
      IntToStringBraceFree(target);
      if red.Some? && green.Some? && blue.Some? {
        HexBytesBraceFree([blue.value, green.value, red.value]);
      }
  }

  /** An alpha tag holds no brace. */
  lemma AlphaTagBraceFree(item: Item)
    requires item.Alpha?
    ensures BraceFree(Prefix(item))
  {
    match item
    case Alpha(alpha, target) =>
      IntToStringBraceFree(target);
      if alpha.Some? {
        HexBytesBraceFree([alpha.value]);
      }
  }

  /** A karaoke tag holds no brace. */
  lemma KaraokeTagBraceFree(item: Item)
    requires item.Karaoke?
    ensures BraceFree(Prefix(item))
  {
    match item
    case Karaoke(_, duration) =>
      FormatTenthsBraceFree(duration);
  }

  /** The opening of an animation holds no brace. */
  lemma AnimationOpeningBraceFree(item: Item)
    requires item.Animation?
    ensures BraceFree(Prefix(item))
  {
    match item
    case Animation(start, end, acceleration, _) =>
      if start.Some? && end.Some? {
        IntToStringBraceFree(start.value);
        IntToStringBraceFree(end.value);
      }
      if acceleration.Some? {
        IntToStringBraceFree(acceleration.value);
      }
  }

  /** A vector clip with a brace-free path holds no brace. */
  lemma ClipVectorBraceFree(item: Item)
    requires item.ClipVector?
    requires LeavesBraceFree(item)
    ensures BraceFree(Prefix(item))
  {
    match item
    case ClipVector(drawingScale, _, _) =>
      if drawingScale.Some? {
        IntToStringBraceFree(drawingScale.value);
      }
  }

  /** The prefix of anything but a tag list writes no brace of its own. */
  lemma PrefixBraceFree(item: Item)
    requires LeavesBraceFree(item) && !item.TagList?
    ensures BraceFree(Prefix(item))
  {
    if item.Border? || item.XBorder? || item.YBorder? {
      BorderTagsBraceFree(item);
    } else if item.Shadow? || item.XShadow? || item.YShadow? {
      ShadowTagsBraceFree(item);
    } else if item.BaselineOffset? || item.DrawingMode? {
      DrawingTagsBraceFree(item);
    } else if item.XRotation? || item.YRotation? || item.ZRotation? {
      RotationTagsBraceFree(item);
    } else if item.XShear? || item.YShear? {
      ShearTagsBraceFree(item);
    } else if item.FontSize? || item.FontEncoding? || item.LetterSpacing? {
      FontTagsBraceFree(item);
    } else if item.FontXScale? || item.FontYScale? {
      ScaleTagsBraceFree(item);
    } else if item.BlurEdges? || item.BlurEdgesGauss? || item.WrapStyle? {
      BlurTagsBraceFree(item);
    } else if item.Alignment? || item.Bold? {
      ChoiceTagsBraceFree(item);
    } else if item.Fade? || item.FadeComplex? {
      FadeTagsBraceFree(item);
    } else if item.Move? || item.ClipRectangle? {
      MoveTagsBraceFree(item);
    } else if item.RotationOrigin? || item.Position? {
      PointTagsBraceFree(item);
    } else if item.Color? {
      ColorTagBraceFree(item);
    } else if item.Alpha? {
      AlphaTagBraceFree(item);
    } else if item.Karaoke? {
      KaraokeTagBraceFree(item);
    } else if item.Animation? {
      AnimationOpeningBraceFree(item);
    } else if item.ClipVector? {
      ClipVectorBraceFree(item);
    }
  }

  /** Braces in a composed item balance at any nesting depth. */
  lemma {:induction false} ComposeItemBalanced(item: Item)
    requires LeavesBraceFree(item)
    ensures Balanced(ComposeItem(item))
    decreases item
  {
    var inner := if HasTags(item) then ComposeItems(item.tags) else "";
    if HasTags(item) {
      ComposeItemsBalanced(item.tags);
    } else {
      BraceFreeBalanced("");
    }
    if item.TagList? {
      BalancedWrap(inner);
      assert ComposeItem(item) == "{" + inner + "}";
    } else {
      PrefixBraceFree(item);
      BraceFreeBalanced(Prefix(item));
      BraceFreeBalanced(Suffix(item));
      BalancedConcat(Prefix(item), inner);
      BalancedConcat(Prefix(item) + inner, Suffix(item));
    }
  }

  lemma {:induction false} ComposeItemsBalanced(items: seq<Item>)
    requires forall i :: 0 <= i < |items| ==> LeavesBraceFree(items[i])
    ensures Balanced(ComposeItems(items))
    decreases items
  {
    if items == [] {
      BraceFreeBalanced("");
    } else {
      var init := items[..|items| - 1];
      ComposeItemsBalanced(init);
      ComposeItemBalanced(items[|items| - 1]);
      BalancedConcat(ComposeItems(init), ComposeItem(items[|items| - 1]));
    }
  }

  /** The composed line has balanced braces whenever its text fields hold none. */
  lemma ComposeLineBalanced(line: AssLine)
    requires forall i :: 0 <= i < |line.chunks| ==> LeavesBraceFree(line.chunks[i])
    ensures Balanced(ComposeLine(line))
  {
    ComposeItemsBalanced(line.chunks);
  }

  // ---------------------------------------------------------------------------
  // Comma-separated arguments

  /** Python's `str.split(",")`. */
  function Split(s: string): (parts: seq<string>)
    ensures |parts| >= 1
  {
    if s == [] then [""]
    else if s[0] == ',' then [""] + Split(s[1..])
    else
      var rest := Split(s[1..]);
      [[s[0]] + rest[0]] + rest[1..]
  }

  /** Every comma-separated piece is an integer literal. */
  predicate AllIntegers(parts: seq<string>) {
    forall i :: 0 <= i < |parts| ==> IsIntegerText(parts[i])
  }

  /** The arguments read back from a comma-separated list. */
  function ReadArgs(s: string): seq<int>
    requires AllIntegers(Split(s))
  {
    var parts := Split(s);
    seq(|parts|, i requires 0 <= i < |parts| => ReadInteger(parts[i]))
  }

  lemma {:induction false} SplitNoComma(s: string)
    requires NoChar(s, ',')
    ensures Split(s) == [s]
  {
    if s != [] {
      SplitNoComma(s[1..]);
      assert [s[0]] + s[1..] == s;
    }
  }

  lemma {:induction false} SplitAtComma(a: string, b: string)
    ensures Split(a + "," + b) == Split(a) + Split(b)
  {
    if a == [] {
      assert a + "," + b == [','] + b;
      assert (a + "," + b)[1..] == b;
    } else {
      assert (a + "," + b)[1..] == a[1..] + "," + b;
      SplitAtComma(a[1..], b);
    }
  }

  /** Splitting the joined arguments gives each argument's own spelling, in order. */
  lemma {:induction false} SplitJoinArgs(xs: seq<int>)
    requires xs != []
    ensures |Split(JoinArgs(xs))| == |xs|
    ensures forall i :: 0 <= i < |xs| ==> Split(JoinArgs(xs))[i] == IntToString(xs[i])
  {
    var last := xs[|xs| - 1];
    IntToStringChars(last, ',');
    SplitNoComma(IntToString(last));
    if |xs| > 1 {
      var init := xs[..|xs| - 1];
      assert JoinArgs(xs) == JoinArgs(init) + "," + IntToString(last);
      SplitJoinArgs(init);
      SplitAtComma(JoinArgs(init), IntToString(last));
      assert Split(JoinArgs(xs)) == Split(JoinArgs(init)) + [IntToString(last)];
      assert forall i :: 0 <= i < |init| ==> xs[i] == init[i];
    }
  }

  /** Arguments written by the composer read back as the fields, in order. */
  lemma ReadJoinArgs(xs: seq<int>)
    requires xs != []
    ensures AllIntegers(Split(JoinArgs(xs)))
    ensures ReadArgs(JoinArgs(xs)) == xs
  {
    SplitJoinArgs(xs);
    forall i | 0 <= i < |xs|
      ensures IsIntegerText(Split(JoinArgs(xs))[i]) && ReadInteger(Split(JoinArgs(xs))[i]) == xs[i]
    {
      ReadIntegerOfIntToString(xs[i]);
    }
  }

  /**
   * A parenthesised tag reads back: its name, then arguments that split at
   * the commas into the given numbers in order, then the closing parenthesis.
   */
  lemma CallTagArguments(name: string, args: seq<int>)
    requires args != []
    ensures var s := CallTag(name, args);
      var k := |name| + 2;
      |s| >= k + 1 && s[..k] == "\\" + name + "(" && s[|s| - 1] == ')'
      && AllIntegers(Split(s[k..|s| - 1]))
      && ReadArgs(s[k..|s| - 1]) == args
  {
    var s := CallTag(name, args);
    var k := |name| + 2;
    assert s[k..|s| - 1] == JoinArgs(args);
    ReadJoinArgs(args);
  }

  // ---------------------------------------------------------------------------
  // Colour and alpha arguments

  lemma HeadsHaveNoAmpersand(target: int, short: bool)
    ensures NoChar(ColorHead(target, short), '&') && NoChar(AlphaHead(target), '&')
  {
    IntToStringChars(target, '&');
  }

  /** A colour argument holds the three bytes' `{:02X}` spellings in order. */
  lemma HexBytesOfThree(b: int, g: int, r: int)
    ensures HexBytes([b, g, r]) == Hex02(b) + Hex02(g) + Hex02(r)
  {
    HexBytesOfOne(b);
    assert [b, g][..1] == [b];
    assert HexBytes([b, g]) == HexBytes([b]) + Hex02(g);
    assert [b, g, r][..2] == [b, g];
    assert HexBytes([b, g, r]) == HexBytes([b, g]) + Hex02(r);
  }

  /** An alpha argument holds the byte's `{:02X}` spelling. */
  lemma HexBytesOfOne(v: int)
    ensures HexBytes([v]) == Hex02(v)
  {
    assert [v][..0] == [];
    assert HexBytes([v]) == HexBytes([]) + Hex02(v);
    EmptyConcat(Hex02(v));
  }

  /**
   * A colour writes its `&H..&` argument exactly when all three channels are
   * present, and then writes blue, green and red in that order.
   */
  lemma ColorArgument(item: Item)
    requires item.Color?
    ensures '&' in Prefix(item) <==> item.red.Some? && item.green.Some? && item.blue.Some?
    ensures item.red.Some? && item.green.Some? && item.blue.Some? ==>
      Prefix(item) == ColorHead(item.target, item.short)
        + HexArgument([item.blue.value, item.green.value, item.red.value])
  {
    HeadsHaveNoAmpersand(item.target, item.short);
  }

  /** An alpha writes its `&H..&` argument exactly when the value is present. */
  lemma AlphaArgument(item: Item)
    requires item.Alpha?
    ensures '&' in Prefix(item) <==> item.alpha.Some?
    ensures item.alpha.Some? ==> Prefix(item) == AlphaHead(item.target) + HexArgument([item.alpha.value])
  {
    HeadsHaveNoAmpersand(item.target, false);
  }

  // ---------------------------------------------------------------------------
  // Clip keyword

  /** Both clips write `\iclip` exactly when inverse and `\clip` otherwise, then their arguments. */
  lemma ClipKeyword(item: Item)
    requires item.ClipRectangle? || item.ClipVector?
    ensures var s := Prefix(item);
      (item.inverse ==> |s| >= 7 && s[..7] == "\\iclip(")
      && (!item.inverse ==> |s| >= 6 && s[..6] == "\\clip(")
  {
  }

  /** A vector clip writes `scale,` before its path exactly when the scale is present. */
  lemma ClipVectorScale(item: Item)
    requires item.ClipVector?
    ensures var kw := if item.inverse then "\\iclip(" else "\\clip(";
      var s := Prefix(item);
      |s| >= |kw| + |item.path| + 1
      && s[..|kw|] == kw && s[|s| - |item.path| - 1..] == item.path + ")"
      && (item.drawingScale.Some? ==> s[|kw|..|s| - |item.path| - 1] == IntToString(item.drawingScale.value) + ",")
      && (item.drawingScale.None? ==> |s| == |kw| + |item.path| + 1)
  {
    var kw := if item.inverse then "\\iclip(" else "\\clip(";
    var scale := if item.drawingScale.Some? then IntToString(item.drawingScale.value) + "," else "";
    ClipVectorPieces(item);
    ArgumentsBetween(kw, scale, item.path + ")");
  }

  /** A vector clip is its keyword with `(`, the optional `scale,`, its path and `)`. */
  lemma ClipVectorPieces(item: Item)
    requires item.ClipVector?
    ensures Prefix(item) ==
      (if item.inverse then "\\iclip(" else "\\clip(")
      + (if item.drawingScale.Some? then IntToString(item.drawingScale.value) + "," else "")
      + (item.path + ")")
  {
  }

  /** The pieces of a three-part text are found where their lengths put them. */
  lemma ArgumentsBetween(a: string, b: string, c: string)
    ensures var s := a + b + c;
      |s| == |a| + |b| + |c| && s[..|a|] == a && s[|a|..|a| + |b|] == b && s[|a| + |b|..] == c
  {
  }
}
