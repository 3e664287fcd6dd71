/**
 * The composer: a pre-order walk over the line that writes each item's
 * canonical spelling into a text buffer. A tag list and an animation write
 * an opening before their nested tags and a closing after them; every other
 * item writes its spelling on entry and nothing on exit.
 */
module AssComposer {
  import opened AssAst
  import opened Format

  // ---------------------------------------------------------------------------
  // Spelling of one item

  function Flag(on: bool): string {
    if on then "1" else "0"
  }

  function KaraokeTag(kind: KaraokeKind): string {
    match kind
    case K1 => "\\k"
    case K2 => "\\K"
    case K3 => "\\kf"
    case K4 => "\\ko"
  }

  /** The legacy renumbering back from the numpad: 4..6 gain one, 7..9 gain two. */
  function NumpadToLegacy(a: int): (code: int)
    ensures 1 <= a <= 9 ==> code in {1, 2, 3, 5, 6, 7, 9, 10, 11}
    ensures a <= code <= a + 2
  {
    if a in {4, 5, 6} then a + 1
    else if a in {7, 8, 9} then a + 2
    else a
  }

  /** The position-keeping renumbering back: the middle row gains five, the top row loses two. */
  function NumpadToLegacyByPosition(a: int): (code: int)
    ensures 1 <= a <= 9 ==> code in {1, 2, 3, 5, 6, 7, 9, 10, 11}
  {
    if a in {4, 5, 6} then a + 5
    else if a in {7, 8, 9} then a - 2
    else a
  }

  /** `\t(` with the optional time range and acceleration, each followed by a comma. */
  function AnimationPrefix(start: Option<int>, end: Option<int>, acceleration: Option<int>): string {
    "\\t("
    + (if start.Some? && end.Some? then IntToString(start.value) + "," + IntToString(end.value) + "," else "")
    + (if acceleration.Some? then IntToString(acceleration.value) + "," else "")
  }

  /** Integer arguments joined by commas, in order. */
  function JoinArgs(xs: seq<int>): string
    requires xs != []
  {
    if |xs| == 1 then IntToString(xs[0])
    else JoinArgs(xs[..|xs| - 1]) + "," + IntToString(xs[|xs| - 1])
  }

  /** A tag with one number written straight after its name, as in `\bord2`. */
  function SimpleTag(name: string, n: int): string {
    "\\" + name + IntToString(n)
  }

  /** A tag with a parenthesised list of numbers, as in `\pos(1,2)`. */
  function CallTag(name: string, args: seq<int>): string
    requires args != []
  {
    "\\" + name + "(" + JoinArgs(args) + ")"
  }

  /** The tag name written before a colour argument. */
  function ColorHead(target: int, short: bool): string {
    if short then "\\c" else "\\" + IntToString(target) + "c"
  }

  /** The tag name written before an alpha argument. */
  function AlphaHead(target: int): string {
    if target == 0 then "\\alpha" else "\\" + IntToString(target) + "a"
  }

  /** Byte values as `{:02X}` each, in order. */
  function HexBytes(bytes: seq<int>): string {
    if bytes == [] then "" else HexBytes(bytes[..|bytes| - 1]) + Hex02(bytes[|bytes| - 1])
  }

  /** The `&H..&` argument of a colour or alpha tag. */
  function HexArgument(bytes: seq<int>): string {
    "&H" + HexBytes(bytes) + "&"
  }

  /**
   * What the visitor writes when it enters `item`, before any nested tags:
   * a tag list opens with `{` and every tag starts with its backslash; plain
   * text and comments are copied as they are.
   */
  function Prefix(item: Item): (p: string)
    ensures !item.Text? && !item.Comment? ==> |p| >= 1 && p[0] == (if item.TagList? then '{' else '\\')
    ensures item.Text? || item.Comment? ==> p == item.text
  {
    match item
    case TagList(_) => "{"
    case Animation(start, end, acceleration, _) => AnimationPrefix(start, end, acceleration)
    case Text(text) => text
    case Comment(text) => text
    case BaselineOffset(y) => SimpleTag("pbo", y)
    case DrawingMode(scale) => SimpleTag("p", scale)
    case Alignment(alignment, legacy) =>
      if legacy then SimpleTag("a", NumpadToLegacy(alignment)) else SimpleTag("an", alignment)
    case Fade(time1, time2) => CallTag("fad", [time1, time2])
    case FadeComplex(alpha1, alpha2, alpha3, time1, time2, time3, time4) =>
      CallTag("fade", [alpha1, alpha2, alpha3, time1, time2, time3, time4])
    case Move(x1, y1, x2, y2, start, end) =>
      CallTag("move", [x1, y1, x2, y2] + (if start.Some? && end.Some? then [start.value, end.value] else []))
    case Color(red, green, blue, target, short) =>
      ColorHead(target, short)
      + (if red.Some? && green.Some? && blue.Some? then HexArgument([blue.value, green.value, red.value]) else "")
    case Alpha(alpha, target) =>
      AlphaHead(target)
      + (if alpha.Some? then HexArgument([alpha.value]) else "")
    case ResetStyle(style) => "\\r" + (if style.Some? then style.value else "")
    case Border(size) => SimpleTag("bord", size)
    case XBorder(size) => SimpleTag("xbord", size)
    case YBorder(size) => SimpleTag("ybord", size)
    case Shadow(size) => SimpleTag("shad", size)
    case XShadow(size) => SimpleTag("xshad", size)
    case YShadow(size) => SimpleTag("yshad", size)
    case XRotation(angle) => SimpleTag("frx", angle)
    case YRotation(angle) => SimpleTag("fry", angle)
    case ZRotation(angle, short) => SimpleTag(if short then "fr" else "frz", angle)
    case RotationOrigin(x, y) => CallTag("org", [x, y])
    case Position(x, y) => CallTag("pos", [x, y])
    case XShear(value) => SimpleTag("fax", value)
    case YShear(value) => SimpleTag("fay", value)
    case FontName(name) => "\\fn" + name
    case FontSize(size) => SimpleTag("fs", size)
    case FontEncoding(encoding) => SimpleTag("fe", encoding)
    case LetterSpacing(spacing) => SimpleTag("fsp", spacing)
    case FontXScale(scale) => SimpleTag("fscx", scale)
    case FontYScale(scale) => SimpleTag("fscy", scale)
    case BlurEdges(times) => SimpleTag("be", times)
    case BlurEdgesGauss(value) => SimpleTag("blur", value)
    case Karaoke(kind, duration) => KaraokeTag(kind) + FormatTenths(duration)
    case Italic(enabled) => "\\i" + Flag(enabled)
    case Underline(enabled) => "\\u" + Flag(enabled)
    case Strikeout(enabled) => "\\s" + Flag(enabled)
    case WrapStyle(value) => SimpleTag("q", value)
    case Bold(weight, enabled) =>
      if weight.Some? then SimpleTag("b", weight.value) else "\\b" + Flag(enabled == Some(true))
    case ClipRectangle(x1, y1, x2, y2, inverse) =>
      CallTag(if inverse then "iclip" else "clip", [x1, y1, x2, y2])
    case ClipVector(drawingScale, path, inverse) =>
      (if inverse then "\\iclip" else "\\clip")
      + "(" + (if drawingScale.Some? then IntToString(drawingScale.value) + "," else "") + path + ")"
  }

  /** What the visitor writes when it leaves `item`: one closing character, and only after nested tags. */
  function Suffix(item: Item): (s: string)
    ensures s != "" <==> HasTags(item)
    ensures |s| <= 1
  {
    match item
    case TagList(_) => "}"
    case Animation(_, _, _, _) => ")"
    case _ => ""
  }

  // ---------------------------------------------------------------------------
  // The composed text of items, tag lists and lines

  /** An item's text: its opening written first, its closing last, its nested tags between. */
  function ComposeItem(item: Item): (r: string)
    ensures |Prefix(item)| + |Suffix(item)| <= |r|
    ensures r[..|Prefix(item)|] == Prefix(item) && r[|r| - |Suffix(item)|..] == Suffix(item)
    decreases item
  {
    Prefix(item) + (if HasTags(item) then ComposeItems(item.tags) else "") + Suffix(item)
  }

  /** Siblings' text, each sibling's after the one before; no siblings write nothing. */
  function ComposeItems(items: seq<Item>): (r: string)
    ensures items == [] ==> r == ""
    decreases items
  {
    if items == [] then ""
    else ComposeItems(items[..|items| - 1]) + ComposeItem(items[|items| - 1])
  }

  /** The text of a line: its chunks' texts in order; an empty line writes nothing. */
  function ComposeLine(line: AssLine): (r: string)
    ensures line.chunks == [] ==> r == ""
  {
    ComposeItems(line.chunks)
  }

  lemma {:induction false} ComposeItemsAppend(a: seq<Item>, b: seq<Item>)
    ensures ComposeItems(a + b) == ComposeItems(a) + ComposeItems(b)
    decreases |b|
  {
    if b == [] {
      assert a + b == a;
    } else {
      var init := b[..|b| - 1];
      assert (a + b)[..|a + b| - 1] == a + init;
      ComposeItemsAppend(a, init);
      ConcatAssoc(ComposeItems(a), ComposeItems(init), ComposeItem(b[|b| - 1]));
    }
  }

  /** Solver hint: appending nothing leaves a text unchanged. */
  lemma ConcatEmpty(s: string)
    ensures s + "" == s
  {
  }

  /** An item without nested tags composes to its prefix alone. */
  lemma ComposeLeaf(item: Item)
    requires !HasTags(item)
    ensures ComposeItem(item) == Prefix(item)
  {
    ConcatEmpty(Prefix(item));
    ConcatEmpty(Prefix(item) + "");
  }

  /** Siblings are composed in sequence order, each item complete before the next. */
  lemma ComposeItemsCons(x: Item, rest: seq<Item>)
    ensures ComposeItems([x] + rest) == ComposeItem(x) + ComposeItems(rest)
  {
    ComposeItemsAppend([x], rest);
    assert [x][..0] == [];
    EmptyConcat(ComposeItem(x));
  }

  lemma ComposeItemsStep(items: seq<Item>, i: nat)
    requires i < |items|
    ensures ComposeItems(items[..i + 1]) == ComposeItems(items[..i]) + ComposeItem(items[i])
  {
    assert items[..i + 1][..i] == items[..i];
  }

  /** One more sibling walked: the buffer holds the composition of one more item. */
  lemma WalkStep(start: string, items: seq<Item>, i: nat, text: string)
    requires i < |items|
    requires text == start + ComposeItems(items[..i]) + ComposeItem(items[i])
    ensures text == start + ComposeItems(items[..i + 1])
  {
    ComposeItemsStep(items, i);
    ConcatAssoc(start, ComposeItems(items[..i]), ComposeItem(items[i]));
  }

  /** Solver hint: prepending nothing leaves a text unchanged. */
  lemma EmptyConcat(s: string)
    ensures "" + s == s
  {
  }

  /** Solver hint: regroups three appended texts. */
  lemma ConcatAssoc(a: string, b: string, c: string)
    ensures a + b + c == a + (b + c)
  {
  }

  /** Solver hint: regroups four appended texts. */
  lemma ConcatRegroup(a: string, b: string, c: string, d: string)
    ensures a + b + c + d == a + (b + c + d)
  {
  }

  // ---------------------------------------------------------------------------
  // The traversal orders

  /** The order in which the walk visits items: each item, then the tags nested in it. */
  function PreOrderItem(item: Item): (visited: seq<Item>)
    ensures |visited| >= 1 && visited[0] == item
    decreases item
  {
    [item] + (if HasTags(item) then PreOrder(item.tags) else [])
  }

  /** The walk visits no fewer items than there are, the first item first. */
  function PreOrder(items: seq<Item>): (visited: seq<Item>)
    ensures |visited| >= |items|
    ensures items != [] ==> visited[0] == items[0]
    decreases items
  {
    if items == [] then []
    else
      var init := items[..|items| - 1];
      assert init != [] ==> init[0] == items[0];
      PreOrder(init) + PreOrderItem(items[|items| - 1])
  }

  /** The context walk enters an item, walks its nested tags, then leaves it. */
  datatype Event = Enter(item: Item) | Exit(item: Item)

  function CtxTraceItem(item: Item): (events: seq<Event>)
    ensures |events| == 2 * |PreOrderItem(item)|
    decreases item
  {
    [Enter(item)] + (if HasTags(item) then CtxTrace(item.tags) else []) + [Exit(item)]
  }

  /** Each item the plain walk visits is entered once and left once. */
  function CtxTrace(items: seq<Item>): (events: seq<Event>)
    ensures |events| == 2 * |PreOrder(items)|
    decreases items
  {
    if items == [] then []
    else CtxTrace(items[..|items| - 1]) + CtxTraceItem(items[|items| - 1])
  }

  /** The items entered by a trace, in order. */
  function Entered(events: seq<Event>): seq<Item> {
    if events == [] then []
    else (
      Entered(events[..|events| - 1])
      + (if events[|events| - 1].Enter? then [events[|events| - 1].item] else []))
  }

  /** The items left by a trace, in order. */
  function Exited(events: seq<Event>): seq<Item> {
    if events == [] then []
    else (
      Exited(events[..|events| - 1])
      + (if events[|events| - 1].Exit? then [events[|events| - 1].item] else []))
  }

  /** The order in which the context walk leaves items: the nested tags first, then the item. */
  function PostOrderItem(item: Item): (left: seq<Item>)
    ensures |left| >= 1 && left[|left| - 1] == item
    decreases item
  {
    (if HasTags(item) then PostOrder(item.tags) else []) + [item]
  }

  /** Siblings are left in sequence order, so the last sibling is left last. */
  function PostOrder(items: seq<Item>): (left: seq<Item>)
    ensures items != [] ==> |left| >= 1 && left[|left| - 1] == items[|items| - 1]
    decreases items
  {
    if items == [] then []
    else PostOrder(items[..|items| - 1]) + PostOrderItem(items[|items| - 1])
  }

  /** The text the composer's visitor writes for a trace. */
  function Render(events: seq<Event>): string {
    if events == [] then ""
    else (
      Render(events[..|events| - 1])
      + (match events[|events| - 1]
         case Enter(item) => Prefix(item)
         case Exit(item) => Suffix(item)))
  }

  lemma {:induction false} PreOrderAppend(a: seq<Item>, b: seq<Item>)
    ensures PreOrder(a + b) == PreOrder(a) + PreOrder(b)
    decreases |b|
  {
    if b == [] {
      assert a + b == a;
    } else {
      var init, last := b[..|b| - 1], b[|b| - 1];
      assert (a + b)[..|a + b| - 1] == a + init;
      assert (a + b)[|a + b| - 1] == last;
      assert PreOrder(a + b) == PreOrder(a + init) + PreOrderItem(last);
      PreOrderAppend(a, init);
      ItemsAssoc(PreOrder(a), PreOrder(init), PreOrderItem(last));
    }
  }

  /** Solver hint: regroups three appended item sequences. */
  lemma ItemsAssoc(x: seq<Item>, y: seq<Item>, z: seq<Item>)
    ensures x + y + z == x + (y + z)
  {
  }

  /**
   * Pre-order: the first item is visited first, then the tags nested in it
   * (only for tag lists and animations), then its later siblings in order.
   */
  lemma PreOrderCons(x: Item, rest: seq<Item>)
    ensures PreOrder([x] + rest) == [x] + (if HasTags(x) then PreOrder(x.tags) else []) + PreOrder(rest)
  {
    PreOrderAppend([x], rest);
    PreOrderSingle(x);
  }

  lemma PreOrderSingle(x: Item)
    ensures PreOrder([x]) == PreOrderItem(x)
  {
    assert [x][..0] == [];
    ItemsEmptyLeft(PreOrderItem(x));
  }

  /** Solver hint: prepending no items leaves a sequence unchanged. */
  lemma ItemsEmptyLeft(x: seq<Item>)
    ensures [] + x == x
  {
  }

  /** Every item of the sequence itself is visited. */
  lemma {:induction false} PreOrderVisitsEachItem(items: seq<Item>)
    ensures forall i :: 0 <= i < |items| ==> items[i] in PreOrder(items)
  {
    if items != [] {
      var init := items[..|items| - 1];
      PreOrderVisitsEachItem(init);
      assert forall i :: 0 <= i < |init| ==> items[i] == init[i];
    }
  }

  lemma {:induction false} EnteredAppend(a: seq<Event>, b: seq<Event>)
    ensures Entered(a + b) == Entered(a) + Entered(b)
    decreases |b|
  {
    if b == [] {
      assert a + b == a;
    } else {
      var init := b[..|b| - 1];
      assert (a + b)[..|a + b| - 1] == a + init;
      EnteredAppend(a, init);
    }
  }

  /** The visitor only appends: the text for a trace split in two is the two texts in order. */
  lemma {:induction false} RenderAppend(a: seq<Event>, b: seq<Event>)
    ensures Render(a + b) == Render(a) + Render(b)
    decreases |b|
  {
    if b == [] {
      assert a + b == a;
    } else {
      var init, e := b[..|b| - 1], b[|b| - 1];
      assert b == init + [e];
      assert a + b == (a + init) + [e];
      RenderSnoc(a + init, e);
      RenderSnoc(init, e);
      RenderAppend(a, init);
      ConcatAssoc(Render(a), Render(init), Render([e]));
    }
  }

  /** Rendering one more event appends that event's text. */
  lemma RenderSnoc(events: seq<Event>, e: Event)
    ensures Render(events + [e]) == Render(events) + Render([e])
  {
    assert (events + [e])[..|events|] == events;
    RenderSingle(e);
  }

  lemma EnteredSingle(e: Event)
    ensures Entered([e]) == if e.Enter? then [e.item] else []
  {
    assert [e][..0] == [];
  }

  lemma RenderSingle(e: Event)
    ensures Render([e]) == if e.Enter? then Prefix(e.item) else Suffix(e.item)
  {
    assert [e][..0] == [];
  }

  /** The context walk enters items in exactly the order the plain walk visits them. */
  lemma {:induction false} EnteredCtxTraceItem(item: Item)
    ensures Entered(CtxTraceItem(item)) == PreOrderItem(item)
    decreases item
  {
    var inner := if HasTags(item) then CtxTrace(item.tags) else [];
    if HasTags(item) {
      EnteredCtxTrace(item.tags);
    }
    EnteredAppend([Enter(item)] + inner, [Exit(item)]);
    EnteredAppend([Enter(item)], inner);
    EnteredSingle(Enter(item));
    EnteredSingle(Exit(item));
  }

  lemma {:induction false} EnteredCtxTrace(items: seq<Item>)
    ensures Entered(CtxTrace(items)) == PreOrder(items)
    decreases items
  {
    if items != [] {
      var init := items[..|items| - 1];
      EnteredCtxTrace(init);
      EnteredCtxTraceItem(items[|items| - 1]);
      EnteredAppend(CtxTrace(init), CtxTraceItem(items[|items| - 1]));
    }
  }

  lemma {:induction false} ExitedAppend(a: seq<Event>, b: seq<Event>)
    ensures Exited(a + b) == Exited(a) + Exited(b)
    decreases |b|
  {
    if b == [] {
      assert a + b == a;
    } else {
      var init := b[..|b| - 1];
      assert (a + b)[..|a + b| - 1] == a + init;
      ExitedAppend(a, init);
    }
  }

  lemma ExitedSingle(e: Event)
    ensures Exited([e]) == if e.Exit? then [e.item] else []
  {
    assert [e][..0] == [];
  }

  /** The context walk leaves an item after every tag nested in it. */
  lemma {:induction false} ExitedCtxTraceItem(item: Item)
    ensures Exited(CtxTraceItem(item)) == PostOrderItem(item)
    decreases item
  {
    var inner := if HasTags(item) then CtxTrace(item.tags) else [];
    var nested := if HasTags(item) then PostOrder(item.tags) else [];
    if HasTags(item) {
      ExitedCtxTrace(item.tags);
    }
    assert Exited(inner) == nested;
    ExitedAppend([Enter(item)] + inner, [Exit(item)]);
    ExitedAppend([Enter(item)], inner);
    ExitedSingle(Enter(item));
    ExitedSingle(Exit(item));
    assert Exited([Enter(item)] + inner) == nested;
  }

  lemma {:induction false} ExitedCtxTrace(items: seq<Item>)
    ensures Exited(CtxTrace(items)) == PostOrder(items)
    decreases items
  {
    if items != [] {
      var init := items[..|items| - 1];
      ExitedCtxTrace(init);
      ExitedCtxTraceItem(items[|items| - 1]);
      ExitedAppend(CtxTrace(init), CtxTraceItem(items[|items| - 1]));
    }
  }

  /** The items left are the items visited, each as many times as it is visited. */
  lemma {:induction false} PostOrderItemSameItems(item: Item)
    ensures multiset(PostOrderItem(item)) == multiset(PreOrderItem(item))
    decreases item
  {
    if HasTags(item) {
      PostOrderSameItems(item.tags);
    }
  }

  lemma {:induction false} PostOrderSameItems(items: seq<Item>)
    ensures multiset(PostOrder(items)) == multiset(PreOrder(items))
    decreases items
  {
    if items != [] {
      PostOrderSameItems(items[..|items| - 1]);
      PostOrderItemSameItems(items[|items| - 1]);
    }
  }

  /** Writing each entered item's prefix and each left item's suffix yields the composed text. */
  lemma {:induction false} RenderCtxTraceItem(item: Item)
    ensures Render(CtxTraceItem(item)) == ComposeItem(item)
    decreases item
  {
    var inner := if HasTags(item) then CtxTrace(item.tags) else [];
    if HasTags(item) {
      RenderCtxTrace(item.tags);
    }
    RenderAppend([Enter(item)] + inner, [Exit(item)]);
    RenderAppend([Enter(item)], inner);
    RenderSingle(Enter(item));
    RenderSingle(Exit(item));
  }

  lemma {:induction false} RenderCtxTrace(items: seq<Item>)
    ensures Render(CtxTrace(items)) == ComposeItems(items)
    decreases items
  {
    if items != [] {
      var init := items[..|items| - 1];
      RenderCtxTrace(init);
      RenderCtxTraceItem(items[|items| - 1]);
      RenderAppend(CtxTrace(init), CtxTraceItem(items[|items| - 1]));
    }
  }

  // ---------------------------------------------------------------------------
  // The walks

  /** `walk_ass_line` with a visitor that records what it is called with. */
  method WalkAssLine(line: AssLine) returns (visited: seq<Item>)
    ensures visited == PreOrder(line.chunks)
  {
    visited := WalkItems(line.chunks);
  }

  method WalkItems(items: seq<Item>) returns (visited: seq<Item>)
    ensures visited == PreOrder(items)
    decreases items
  {
    visited := [];
    for i := 0 to |items|
      invariant visited == PreOrder(items[..i])
    {
      var item := items[i];
      visited := visited + [item];
      if HasTags(item) {
        var nested := WalkItems(item.tags);
        visited := visited + nested;
      }
      assert visited == PreOrder(items[..i]) + PreOrderItem(item);
      assert items[..i + 1][..i] == items[..i];
    }
    assert items[..|items|] == items;
  }

  /** `walk_ass_line_ctx` with a context visitor that records entries and exits. */
  method WalkAssLineCtx(line: AssLine) returns (events: seq<Event>)
    ensures events == CtxTrace(line.chunks)
  {
    events := WalkItemsCtx(line.chunks);
  }

  method WalkItemsCtx(items: seq<Item>) returns (events: seq<Event>)
    ensures events == CtxTrace(items)
    decreases items
  {
    events := [];
    for i := 0 to |items|
      invariant events == CtxTrace(items[..i])
    {
      var item := items[i];
      events := events + [Enter(item)];
      if HasTags(item) {
        var nested := WalkItemsCtx(item.tags);
        events := events + nested;
      }
      events := events + [Exit(item)];
      assert events == CtxTrace(items[..i]) + CtxTraceItem(item);
      assert items[..i + 1][..i] == items[..i];
    }
    assert items[..|items|] == items;
  }

  /**
   * The text buffer the composer writes to, together with the composer's
   * visitor: entering an item writes its prefix, leaving it writes its suffix.
   */
  class Composer {
    var text: string

    constructor ()
      ensures text == ""
    {
      text := "";
    }

    method Write(s: string)
      modifies this
      ensures text == old(text) + s
    {
      text := text + s;
    }

    method Enter(item: Item)
      modifies this
      ensures text == old(text) + Prefix(item)
    {
      if item.TagList? {
        Write("{");
      } else if item.Animation? {
        EnterAnimation(item.start, item.end, item.acceleration);
      } else {
        Write(Prefix(item));
      }
    }

    /** The opening of `\t(`, written piece by piece as the visitor does. */
    method EnterAnimation(start: Option<int>, end: Option<int>, acceleration: Option<int>)
      modifies this
      ensures text == old(text) + AnimationPrefix(start, end, acceleration)
    {
      var times := if start.Some? && end.Some? then IntToString(start.value) + "," + IntToString(end.value) + "," else "";
      var accel := if acceleration.Some? then IntToString(acceleration.value) + "," else "";
      Write("\\t(");
      if start.Some? && end.Some? {
        Write(times);
      }
      if acceleration.Some? {
        Write(accel);
      }
      ConcatRegroup(old(text), "\\t(", times, accel);
    }

    method Exit(item: Item)
      modifies this
      ensures text == old(text) + Suffix(item)
    {
      if item.TagList? {
        Write("}");
      } else if item.Animation? {
        Write(")");
      }
    }

    /** The context walk over one item: enter it, walk its nested tags, leave it. */
    method WalkItem(item: Item)
      modifies this
      ensures text == old(text) + ComposeItem(item)
      decreases item, 1
    {
      Enter(item);
      if HasTags(item) {
        Walk(item.tags);
      }
      Exit(item);
      ConcatRegroup(old(text), Prefix(item), if HasTags(item) then ComposeItems(item.tags) else "", Suffix(item));
    }

    /** The context walk over `items` with this visitor. */
    method Walk(items: seq<Item>)
      modifies this
      ensures text == old(text) + ComposeItems(items)
      decreases items, 0
    {
      for i := 0 to |items|
        invariant text == old(text) + ComposeItems(items[..i])
      {
        WalkItem(items[i]);
        WalkStep(old(text), items, i, text);
      }
      assert items[..|items|] == items;
    }
  }

  /** `compose_ass`: a fresh buffer, the walk over the line's chunks, the buffer's text. */
  method ComposeAss(line: AssLine) returns (s: string)
    ensures s == ComposeLine(line)
  {
    var composer := new Composer();
    composer.Walk(line.chunks);
    s := composer.text;
  }
}
