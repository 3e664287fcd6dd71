# ass_tag_parser in Dafny

A model of the two halves of `ass_tag_parser`'s handling of Advanced
SubStation Alpha override-tag markup in one dialogue line:

- **the fold** (`ass_tag_parser/ass.py`): the `visit_*` rules that turn the
  already-folded children of one recognised grammar production into one AST
  value. Canonicalisation happens here: legacy `\a` alignment codes are
  renumbered onto the 1..9 numpad, karaoke durations are multiplied by ten,
  the blue/green/red byte triple of a colour is stored as red, green and
  blue fields, bold is told apart as a toggle or a weight, clip inverse is
  read off a leading `i`, and optional groups become present-or-absent
  fields;
- **the composer** (`ass_tag_parser/ass_composer.py`): a pre-order walk of
  the AST that appends each item's canonical spelling to a text buffer.
  Tag lists write `{`…`}` and animations `\t(`…`)` around their nested tags.
  Optional arguments are written only when present, colour and alpha bytes
  as two upper-case hex digits, legacy alignment renumbered back, and bold
  as a weight or a `0`/`1` toggle.

Files and modules:

| file | module | contents |
|---|---|---|
| `format.dfy` | `Format` | Python's `int(s)`, `int(s, 16)`, `str(n)`, `f"{v:02X}"` and the float printer on `d / 10`, with their read-back lemmas |
| `ast.dfy` | `AssAst` | the `Item` datatype (one constructor per item kind, the four karaoke classes sharing `Karaoke` with a `kind`, with the composer's field names except the renames listed below) and `AssLine` |
| `fold.dfy` | `AssFold` | one function per `visit_*` rule, the `Production` datatype, `Visit`, and the invariants (`Normalized`) every folded item satisfies |
| `composer.dfy` | `AssComposer` | the per-item spelling (`Prefix`/`Suffix`), the specification `ComposeItem`/`ComposeItems`, the two walks as methods, and the `Composer` class whose `text` field is the buffer |
| `spelling.dfy` | `AssSpelling` | what the composed text guarantees: balanced braces, arguments that read back, hex bytes, clip keywords |
| `roundtrip.dfy` | `AssRoundTrip` | fold and composer together: the renumberings are inverse, composing a folded tag writes back what was parsed, and every normalised item is the fold of a production |

### The AST both halves share

`ass.py` builds dictionaries with keys such as `alignment`, `duration` and
`value`, while the composer reads objects with fields such as `short`,
`target`, `time1`, `scale` and `path`. The two files come from different
revisions of the AST. The model has one `Item` datatype, and the fold
produces it. Its fields take the composer's names, except where Dafny
requires a field name shared by two constructors to have one type. These
fields are renamed:

| item | composer's field (`ass_composer.py`) | model's field |
|---|---|---|
| `Animation` | `time1`, `time2` (lines 42-44) | `start`, `end` |
| `Move` | `time1`, `time2` (lines 84-86) | `start`, `end` |
| `Alpha` | `value` (lines 103-105) | `alpha` |
| `WrapStyle` | `style` (line 170) | `value` |
| `BlurEdgesGauss` | `weight` (line 154) | `value` |
| `Bold` | `enabled` (line 177) | `boldEnabled` |
| `ClipVector` | `scale` (lines 187-188) | `drawingScale` |

For fields the fold never sets, it chooses as follows:

- a colour's `target` is 1..4 from the rule (primary, secondary, border,
  shadow) and `short` is false, so the long spelling `\1c` is written;
- an alpha's `target` is 0..4 from the rule and its value is always present;
- rotation-z's `short` is false (`\frz`);
- bold holds `weight` or `boldEnabled`, never both.

`visit_ass_chunk` (`ass.py:19-20`) returns the block's folded tags, and
`visit_ass_line` flattens them into the line. The composer, however,
expects each `{...}` block as a tag-list item. The model's fold wraps a block
as `TagList`, which is the composer's shape.

Numbers are integers. The composer's "smart" float printer is the integer
spelling `str(n)` on whole values. On a stored karaoke duration `d` it
prints `d / 10`: the integer when `d` is a multiple of ten, otherwise one
decimal digit (`FormatTenths`).

## Model

| member | source | states |
|---|---|---|
| Format.ReadIntegerOfIntToString | ass_tag_parser/ass.py:31-35 | `int()` reads `str(n)` back as `n` for every integer, negative ones included |
| Format.IntToString | ass_tag_parser/ass_composer.py:59 | `str(n)` of an integer is never empty and holds only decimal digits and a minus sign |
| Format.Hex02 | ass_tag_parser/ass_composer.py:98 | `f"{v:02X}"` writes at least two characters, each an upper-case hex digit or a minus sign |
| Format.FormatTenths | ass_tag_parser/ass_composer.py:155-162 | the printer of `d / 10` writes only decimal digits, a point and a minus sign |
| Format.ReadHex | ass_tag_parser/ass.py:46-47 | `int(s, 16)` of `k` hex digits is below 16^k |
| Format.IntToStringOfReadDecimal | ass_tag_parser/ass.py:198 | a digit string without leading zeros is exactly what `str` writes for the value `int` reads from it |
| Format.ReadHexOfHex02 | ass_tag_parser/ass.py:46-47 | `int(s, 16)` reads `f"{v:02X}"` back as `v` for every non-negative `v` |
| Format.Hex02OfByte | ass_tag_parser/ass_composer.py:97-99 | `{:02X}` of a byte is exactly two upper-case hex digits, the high nibble then the low, and reads back as the byte |
| Format.TwoHexDigitsAreAByte | ass_tag_parser/ass.py:46-47 | two hex digits always read as a value in 0..255 |
| Format.ReadDecimalOfDecimalString | ass_tag_parser/ass.py:43-44 | `int()` reads the decimal spelling of `n` back as `n` |
| Format.ReadHexOfHexString | ass_tag_parser/ass.py:46-47 | `int(s, 16)` reads the upper-case hex spelling of `n` back as `n` |
| Format.DecimalStringOfReadDecimal | ass_tag_parser/ass.py:43-44 | a digit string without leading zeros is the decimal spelling of the value it reads as |
| Format.IntToStringOfNat | ass_tag_parser/ass_composer.py:142 | on a non-negative value `str(n)` is the plain digit spelling, without sign or leading zeros |
| Format.FormatTenthsOfTenfold | ass_tag_parser/ass_composer.py:155-162 | printing `(10 * v) / 10` gives `str(v)`: the stored tenfold duration prints as the written value |
| Format.FormatTenthsFraction | ass_tag_parser/ass_composer.py:155-162 | a duration that is not a multiple of ten prints as its sign, the whole tens of its magnitude, a point, and its last decimal digit, which is not zero |
| AssFold.VisitBoolean | ass_tag_parser/ass.py:28-29 | `bool(int(text))` is true exactly when some digit is not `0` |
| AssFold.VisitInteger | ass_tag_parser/ass.py:31-35 | an unsigned literal reads as a non-negative value and a `-` literal as a non-positive one |
| AssFold.VisitByteValueInt | ass_tag_parser/ass.py:43-44 | a decimal byte value is its digits read in base 10, whose `str` is the digits again when they have no leading zeros |
| AssFold.VisitByteValueHex | ass_tag_parser/ass.py:46-47 | a hex byte value is its digits read in base 16; two digits give a byte, and two upper-case digits are what `{:02X}` writes for it |
| AssFold.TwoUpperHexDigits | ass_tag_parser/ass.py:46-47 | two upper-case hex digits read as a byte whose `{:02X}` is the same two digits |
| AssFold.VisitColorValue | ass_tag_parser/ass.py:49-50 | the colour value is the triple of its three byte children in source order |
| AssFold.VisitColor | ass_tag_parser/ass.py:136-166 | red is the third byte, green the second and blue the first; the target is the rule's and the spelling is long |
| AssFold.VisitAlpha | ass_tag_parser/ass.py:168-181 | the alpha value is present and is the child's; the target is the rule's |
| AssFold.VisitBold | ass_tag_parser/ass.py:61-64 | a boolean child gives `enabled` and any other child gives `weight`, never both, each holding the child |
| AssFold.VisitKaraoke | ass_tag_parser/ass.py:183-193 | all four karaoke kinds store exactly ten times the written value |
| AssFold.VisitAlignment | ass_tag_parser/ass.py:195-200 | `\an` keeps the digit unchanged, with `legacy` false; a digit 1..9 gives a position 1..9 |
| AssFold.LegacyToNumpad | ass_tag_parser/ass.py:202-208 | each of the nine legacy codes lands on the numpad 1..9 |
| AssFold.LegacyToNumpadInjective | ass_tag_parser/ass.py:202-208 | distinct legacy codes land on distinct numpad positions |
| AssFold.LegacyToNumpadSwapsRows | ass_tag_parser/ass.py:204-207 | the renumbering as written sends the top-row code 6 to the middle numpad position 5 and the middle-row code 10 to the top numpad position 8 |
| AssFold.LegacyToNumpadByPosition | ass_tag_parser/ass.py:202-208 | the position-keeping renumbering sends each legacy code to the numpad position in the same row and column |
| AssFold.LegacyToNumpadByPositionInjective | ass_tag_parser/ass.py:202-208 | the position-keeping renumbering is one-to-one on the legacy codes |
| AssFold.VisitAlignmentLegacy | ass_tag_parser/ass.py:202-208 | `\a` renumbers its code (9 and up lose two, 5 and up lose one) and sets `legacy`; a legacy code gives a position 1..9 |
| AssFold.VisitWrapStyle | ass_tag_parser/ass.py:210-211 | the wrap style is its digits read in base 10, non-negative, whose `str` is the digits again when they have no leading zeros |
| AssFold.VisitResetStyle | ass_tag_parser/ass.py:213-217 | the style is absent exactly when the optional child matched nothing, otherwise it is that child |
| AssFold.VisitMovement | ass_tag_parser/ass.py:226-235 | the coordinates are kept; start and end are both present or both absent, exactly when the optional group matched, and hold its two times |
| AssFold.Flatten | ass_tag_parser/ass.py:262 | no groups give no tags, and every tag of every group is among the flattened tags |
| AssFold.FlattenAppend | ass_tag_parser/ass.py:262 | flattening distributes over concatenation, so nested tags keep their order |
| AssFold.FlattenSingletons | ass_tag_parser/ass.py:262 | when each repetition yields one tag, the flattened tags are those tags in order |
| AssFold.VisitAnimation | ass_tag_parser/ass.py:256-263 | start and end are both present or both absent, per the time group; acceleration is present exactly when its group matched; the tags are the flattened groups in order |
| AssFold.VisitClipRectangle | ass_tag_parser/ass.py:265-273 | the four coordinates are kept, and `inverse` holds exactly when the keyword starts with `i` |
| AssFold.VisitClipVector | ass_tag_parser/ass.py:275-281 | the commands are kept; `inverse` holds exactly when the keyword starts with `i`; the scale is present exactly when its group matched |
| AssFold.Visit | ass_tag_parser/ass.py:16-287 | the fold of any production: plain text, a comment and a brace block fold to `Text`, `Comment` and `TagList`, and no other production folds to one of those, so the rest fold to tags (that the pass-through rules copy their child is stated by `UnvisitPlain`) |
| AssFold.FoldNormalizes | ass_tag_parser/ass.py:13-287 | every recognised production folds to an item satisfying the AST invariants (colour, alpha and complex-fade bytes in range, alignment on the numpad, whole tenths, paired times, bold one of two, normalised nested tags) |
| AssFold.CanonicalFoldNormalizes | ass_tag_parser/ass.py:136-208 | the colour, alpha, karaoke, alignment and bold rules establish the invariants of their kind |
| AssFold.FlattenNormalized | ass_tag_parser/ass.py:256-263 | flattening the tag groups of an animation keeps every tag a normalised tag |
| AssComposer.NumpadToLegacy | ass_tag_parser/ass_composer.py:60-67 | renumbering back adds one to 4..6 and two to 7..9, and maps 1..9 onto the nine legacy codes |
| AssComposer.NumpadToLegacyByPosition | ass_tag_parser/ass_composer.py:60-67 | the position-keeping renumbering back (see Findings) maps 1..9 onto the nine legacy codes |
| AssComposer.Prefix | ass_tag_parser/ass_composer.py:32-189 | on entering an item the visitor writes `{` for a tag list and a text starting with a backslash for every tag; plain text and comments are written exactly as their text |
| AssComposer.Suffix | ass_tag_parser/ass_composer.py:34-50 | on leaving an item the visitor writes one closing character for a tag list or animation and nothing for anything else |
| AssComposer.ComposeItem | ass_tag_parser/ass_composer.py:12-15 | an item's text starts with its opening and ends with its closing, and is at least as long as the two together |
| AssComposer.ComposeItems | ass_tag_parser/ass_composer.py:12-13 | no siblings compose to the empty text (their order is stated by `ComposeItemsAppend` and `ComposeItemsCons`) |
| AssComposer.ComposeLine | ass_tag_parser/ass_composer.py:196-199 | a line without chunks composes to the empty text |
| AssComposer.PreOrderItem | ass_tag_parser/ass_composer.py:25-27 | the plain walk visits an item before any of its nested tags |
| AssComposer.PreOrder | ass_tag_parser/ass_composer.py:23-27 | the walk visits no fewer items than there are, and the first item first |
| AssComposer.PreOrderVisitsEachItem | ass_tag_parser/ass_composer.py:24-25 | every item of the sequence itself is visited |
| AssComposer.CtxTraceItem | ass_tag_parser/ass_composer.py:13-15 | the context walk makes twice as many events for one item as the plain walk visits items (which events they are: `EnteredCtxTraceItem`, `ExitedCtxTraceItem`) |
| AssComposer.CtxTrace | ass_tag_parser/ass_composer.py:11-15 | the context walk makes twice as many events as the plain walk visits items (which events they are: `EnteredCtxTrace`, `ExitedCtxTrace`) |
| AssComposer.PostOrderItem | ass_tag_parser/ass_composer.py:13-15 | the `with` block leaves an item after its nested tags, so the item is left last |
| AssComposer.PostOrder | ass_tag_parser/ass_composer.py:11-15 | siblings are left in sequence order, so the last sibling is left last |
| AssComposer.RenderAppend | ass_tag_parser/ass_composer.py:32-50 | the visitor only appends to the buffer: the text written for a trace split in two is the two texts in order |
| AssComposer.WalkItems | ass_tag_parser/ass_composer.py:23-27 | the plain walk visits the items in pre-order, as the loop over siblings and the recursion into tag lists and animations produce them |
| AssComposer.WalkAssLine | ass_tag_parser/ass_composer.py:20-29 | `walk_ass_line` visits the line's items in pre-order |
| AssComposer.WalkItemsCtx | ass_tag_parser/ass_composer.py:11-15 | the context walk enters each item, walks its nested tags, and leaves it, sibling after sibling |
| AssComposer.WalkAssLineCtx | ass_tag_parser/ass_composer.py:8-17 | `walk_ass_line_ctx` produces the enter/exit trace of the line's chunks |
| AssComposer.PreOrderCons | ass_tag_parser/ass_composer.py:23-27 | pre-order: the first item, then its nested tags (only for tag lists and animations), then its later siblings |
| AssComposer.PreOrderAppend | ass_tag_parser/ass_composer.py:24 | siblings keep their sequence order: the walk of a concatenation is the concatenation of the walks |
| AssComposer.EnteredCtxTraceItem | ass_tag_parser/ass_composer.py:8-15 | the context walk enters an item and its descendants in exactly the plain walk's order |
| AssComposer.EnteredCtxTrace | ass_tag_parser/ass_composer.py:8-29 | both walks visit the same items in the same order |
| AssComposer.ExitedCtxTraceItem | ass_tag_parser/ass_composer.py:13-15 | the context walk leaves an item's nested tags, then the item, in post-order |
| AssComposer.ExitedCtxTrace | ass_tag_parser/ass_composer.py:11-15 | the items the context walk leaves are exactly the post-order of the items |
| AssComposer.PostOrderItemSameItems | ass_tag_parser/ass_composer.py:13-15 | every item visited under one item is left, as often as it is visited |
| AssComposer.PostOrderSameItems | ass_tag_parser/ass_composer.py:8-17 | with `EnteredCtxTrace` and `ExitedCtxTrace`: every item the plain walk visits is entered once and left once, and nothing else is left |
| AssComposer.RenderCtxTraceItem | ass_tag_parser/ass_composer.py:32-50 | writing each entered item's opening and each left item's closing gives the item's composed text |
| AssComposer.RenderCtxTrace | ass_tag_parser/ass_composer.py:32-193 | the text the visitor writes along the trace is the composition of the items |
| AssComposer.ComposeItemsAppend | ass_tag_parser/ass_composer.py:12-13 | the composition of a concatenation is the concatenation of the compositions |
| AssComposer.ComposeItemsCons | ass_tag_parser/ass_composer.py:12-13 | siblings are written in order, each complete before the next |
| AssComposer.ComposeLeaf | ass_tag_parser/ass_composer.py:52-193 | an item other than a tag list or animation writes its spelling and nothing around it |
| AssComposer.Composer.constructor | ass_tag_parser/ass_composer.py:197 | the buffer starts empty |
| AssComposer.Composer.Write | ass_tag_parser/ass_composer.py:35 | a write appends its text to the buffer |
| AssComposer.Composer.Enter | ass_tag_parser/ass_composer.py:33-189 | entering an item appends its opening: `{`, the animation opening, or the item's spelling |
| AssComposer.Composer.EnterAnimation | ass_tag_parser/ass_composer.py:40-47 | `\t(`, then `t1,t2,` only when both times are present, then `accel,` only when present |
| AssComposer.Composer.Exit | ass_tag_parser/ass_composer.py:34-50 | leaving a tag list appends `}`, leaving an animation `)`, leaving anything else nothing |
| AssComposer.Composer.WalkItem | ass_tag_parser/ass_composer.py:13-15 | one item's enter, nested walk and exit append exactly its composed text |
| AssComposer.Composer.Walk | ass_tag_parser/ass_composer.py:11-15 | walking a sequence appends the composition of its items in order |
| AssComposer.ComposeAss | ass_tag_parser/ass_composer.py:196-199 | `compose_ass` returns the composition of the line's chunks |
| AssSpelling.IntToStringChars | ass_tag_parser/ass_composer.py:57 | a number's spelling holds only digits and a minus sign |
| AssSpelling.Hex02Chars | ass_tag_parser/ass_composer.py:97-99 | `{:02X}` writes only hex digits and a minus sign |
| AssSpelling.FormatTenthsChars | ass_tag_parser/ass_composer.py:156 | the duration printer writes only digits, a point and a minus sign |
| AssSpelling.BalancedWrap | ass_tag_parser/ass_composer.py:34-38 | wrapping balanced text in `{`…`}` keeps it balanced |
| AssSpelling.BalancedConcat | ass_tag_parser/ass_composer.py:12-13 | consecutive balanced texts are balanced |
| AssSpelling.BraceFreeBalanced | ass_tag_parser/ass_composer.py:52-189 | text without braces is balanced |
| AssSpelling.JoinArgsChars | ass_tag_parser/ass_composer.py:72 | comma-joined numbers hold only digits, signs and commas |
| AssSpelling.SimpleTagBraceFree | ass_tag_parser/ass_composer.py:110 | a name followed by a number holds no brace |
| AssSpelling.CallTagBraceFree | ass_tag_parser/ass_composer.py:132 | a name followed by a parenthesised number list holds no brace |
| AssSpelling.BorderTagsBraceFree | ass_tag_parser/ass_composer.py:109-114 | `\bord`, `\xbord` and `\ybord` hold no brace |
| AssSpelling.ShadowTagsBraceFree | ass_tag_parser/ass_composer.py:115-120 | `\shad`, `\xshad` and `\yshad` hold no brace |
| AssSpelling.DrawingTagsBraceFree | ass_tag_parser/ass_composer.py:56-59 | `\pbo` and `\p` hold no brace |
| AssSpelling.RotationTagsBraceFree | ass_tag_parser/ass_composer.py:121-130 | `\frx`, `\fry` and `\fr`/`\frz` hold no brace |
| AssSpelling.ShearTagsBraceFree | ass_tag_parser/ass_composer.py:135-138 | `\fax` and `\fay` hold no brace |
| AssSpelling.FontTagsBraceFree | ass_tag_parser/ass_composer.py:141-146 | `\fs`, `\fe` and `\fsp` hold no brace |
| AssSpelling.ScaleTagsBraceFree | ass_tag_parser/ass_composer.py:147-150 | `\fscx` and `\fscy` hold no brace |
| AssSpelling.BlurTagsBraceFree | ass_tag_parser/ass_composer.py:151-154 | `\be`, `\blur` and `\q` hold no brace |
| AssSpelling.ChoiceTagsBraceFree | ass_tag_parser/ass_composer.py:60-69 | alignment and bold tags hold no brace |
| AssSpelling.FadeTagsBraceFree | ass_tag_parser/ass_composer.py:70-79 | `\fad(...)` and `\fade(...)` hold no brace |
| AssSpelling.MoveTagsBraceFree | ass_tag_parser/ass_composer.py:80-88 | `\move(...)` and the rectangular clip hold no brace |
| AssSpelling.PointTagsBraceFree | ass_tag_parser/ass_composer.py:131-134 | `\org(...)` and `\pos(...)` hold no brace |
| AssSpelling.ColorTagBraceFree | ass_tag_parser/ass_composer.py:89-100 | a colour tag holds no brace |
| AssSpelling.AlphaTagBraceFree | ass_tag_parser/ass_composer.py:101-106 | an alpha tag holds no brace |
| AssSpelling.KaraokeTagBraceFree | ass_tag_parser/ass_composer.py:155-162 | a karaoke tag holds no brace |
| AssSpelling.AnimationOpeningBraceFree | ass_tag_parser/ass_composer.py:41-47 | the animation opening holds no brace |
| AssSpelling.ClipVectorBraceFree | ass_tag_parser/ass_composer.py:184-189 | a vector clip whose path holds no brace holds none |
| AssSpelling.PrefixBraceFree | ass_tag_parser/ass_composer.py:40-189 | the opening of anything but a tag list writes no brace of its own |
| AssSpelling.ComposeItemBalanced | ass_tag_parser/ass_composer.py:34-38 | braces in a composed item balance at any nesting depth |
| AssSpelling.ComposeItemsBalanced | ass_tag_parser/ass_composer.py:11-15 | braces in composed siblings balance |
| AssSpelling.ComposeLineBalanced | ass_tag_parser/ass_composer.py:196-199 | the composed line has balanced braces |
| AssSpelling.SplitJoinArgs | ass_tag_parser/ass_composer.py:76-78 | splitting comma-joined numbers at the commas gives each number's spelling in order |
| AssSpelling.ReadJoinArgs | ass_tag_parser/ass_composer.py:70-88 | comma-joined numbers read back as the same numbers in the same order (read back by splitting at the commas, `Split`, which is a reader for the composed text and not part of the source) |
| AssSpelling.CallTagArguments | ass_tag_parser/ass_composer.py:70-88 | a parenthesised tag is its name, `(`, arguments that read back as the fields in order, and `)` |
| AssSpelling.HeadsHaveNoAmpersand | ass_tag_parser/ass_composer.py:90 | colour and alpha tag names hold no `&` |
| AssSpelling.HexBytesOfThree | ass_tag_parser/ass_composer.py:97-99 | the colour argument's digits are the blue, green and red `{:02X}` spellings in that order |
| AssSpelling.HexBytesOfOne | ass_tag_parser/ass_composer.py:105 | the alpha argument's digits are the value's `{:02X}` spelling |
| AssSpelling.ColorArgument | ass_tag_parser/ass_composer.py:89-100 | a colour writes `&H..&` exactly when all three channels are present, and then blue, green, red |
| AssSpelling.AlphaArgument | ass_tag_parser/ass_composer.py:101-106 | an alpha writes `&H..&` exactly when its value is present |
| AssSpelling.ClipKeyword | ass_tag_parser/ass_composer.py:180-185 | both clips start `\iclip(` exactly when inverse and `\clip(` otherwise |
| AssSpelling.ClipVectorScale | ass_tag_parser/ass_composer.py:184-189 | a vector clip writes `scale,` before its path exactly when the scale is present, and ends with the path and `)` |
| AssRoundTrip.LegacyRoundTrip | ass_tag_parser/ass_composer.py:60-67 | composing renumbers every parsed legacy code back to itself |
| AssRoundTrip.NumpadRoundTrip | ass_tag_parser/ass.py:202-208 | parsing renumbers every composed code back to its numpad position 1..9 |
| AssRoundTrip.PositionRoundTrip | ass_tag_parser/ass.py:202-208 | the position-keeping renumberings (see Findings) are inverse to each other in both directions |
| AssRoundTrip.LegacyDigits | ass_tag_parser/ass.py:202-203 | the nine legacy spellings are canonical digits reading as the nine legacy codes |
| AssRoundTrip.NumpadDigits | ass_tag_parser/ass.py:195-200 | the nine numpad digits are canonical digits reading as 1..9 |
| AssRoundTrip.AlignmentLegacyWritesBack | ass_tag_parser/ass_composer.py:61-67 | `\a<code>` parses and composes back to the same text |
| AssRoundTrip.AlignmentWritesBack | ass_tag_parser/ass_composer.py:68-69 | `\an<digit>` parses and composes back to the same text |
| AssRoundTrip.WrapStyleWritesBack | ass_tag_parser/ass_composer.py:169-170 | `\q<digits>` parses and composes back to the same text when the digits have no leading zeros (`\q01` composes as `\q1`) |
| AssRoundTrip.KaraokeWritesBack | ass_tag_parser/ass_composer.py:155-162 | a karaoke tag composes back to its written value: the ×10 of the fold and the /10 of the composer cancel |
| AssRoundTrip.ColorArgumentOfHex | ass_tag_parser/ass_composer.py:96-100 | three parsed hex pairs are written back as `&H`, the same pairs in the same order, `&` |
| AssRoundTrip.ColorComposes | ass_tag_parser/ass_composer.py:89-100 | a folded colour composes to `\<target>c` and its bytes as blue, green, red |
| AssRoundTrip.ColorWritesBack | ass_tag_parser/ass.py:136-166 | a colour with upper-case hex bytes parses and composes back to the same text, so the reorder into red/green/blue is undone on output |
| AssRoundTrip.AlphaArgumentOfHex | ass_tag_parser/ass_composer.py:103-106 | a parsed hex pair is written back as `&H`, the pair, `&` |
| AssRoundTrip.AlphaWritesBack | ass_tag_parser/ass_composer.py:101-106 | an alpha with an upper-case hex byte parses and composes back to the same text |
| AssRoundTrip.FlagRoundTrip | ass_tag_parser/ass_composer.py:163-168 | a `0`/`1` digit folds to a boolean that is written back as the same digit, and the other way round |
| AssRoundTrip.BoldToggleWritesBack | ass_tag_parser/ass_composer.py:171-179 | `\b0` and `\b1` parse and compose back to the same text |
| AssRoundTrip.BoldWeightWritesBack | ass_tag_parser/ass_composer.py:171-179 | a bold weight composes back as `\b` and the weight |
| AssRoundTrip.ResetStyleWritesBack | ass_tag_parser/ass_composer.py:107-108 | `\r` with or without a style composes back to the same text |
| AssRoundTrip.ClipWritesBack | ass_tag_parser/ass_composer.py:180-183 | the keyword `clip` or `iclip` survives the fold and is written back with the four coordinates |
| AssRoundTrip.ComposeFlatten | ass_tag_parser/ass.py:262 | composing an animation's flattened tags writes each parsed group's tags, group after group |
| AssRoundTrip.AnimationWritesBack | ass_tag_parser/ass.py:256-263 | a parsed `\t(...)` composes back as `\t(`, the two times exactly when their group matched, the acceleration exactly when its group matched, every nested tag in parsed order, and `)` (ass_composer.py:41-50) |
| AssRoundTrip.MoveWritesBack | ass_tag_parser/ass_composer.py:80-88 | `\move` writes back its two times exactly when the optional group matched |
| AssRoundTrip.LegacyCodeSpelling | ass_tag_parser/ass.py:202-208 | `str` spells the nine legacy codes as the nine legacy spellings, which read back as the codes |
| AssRoundTrip.LegacyCodeReadBack | ass_tag_parser/ass.py:203 | a legacy code's spelling reads back as the code |
| AssRoundTrip.UnvisitAlignment | ass_tag_parser/ass.py:195-208 | an alignment in either scheme is the fold of the spelling the composer writes for it |
| AssRoundTrip.UnvisitWrapStyle | ass_tag_parser/ass.py:210-211 | a wrap style is the fold of its canonical spelling |
| AssRoundTrip.UnvisitColorAlpha | ass_tag_parser/ass.py:136-181 | a colour or alpha is the fold of its bytes in written order |
| AssRoundTrip.UnvisitKaraoke | ass_tag_parser/ass.py:183-193 | a whole number of tenths is the fold of the tenths it was scaled from |
| AssRoundTrip.UnvisitOptional | ass_tag_parser/ass.py:213-235 | move times, reset style and bold come back present exactly when the field is present |
| AssRoundTrip.UnvisitClip | ass_tag_parser/ass.py:265-281 | both clips are the fold of their keyword, coordinates or optional scale, and commands |
| AssRoundTrip.UnvisitNested | ass_tag_parser/ass.py:256-263 | a brace block and an animation keep their nested tags |
| AssRoundTrip.UnvisitPlain | ass_tag_parser/ass.py:16-287 | every other item is a field-for-field copy of its production |
| AssRoundTrip.FoldOfUnvisit | ass_tag_parser/ass.py:13-287 | every normalised item is the fold of a recognised production, so with `FoldNormalizes` the normalised items are exactly the fold's results |

## Left out

- The grammar and its recognition of raw text (`ass.py:1-6`, `290-295`): the grammar is a data file run by the parsimonious library, neither of which is part of this model. Each rule is modelled from the folded values of the children it reads; `Recognised` states what the grammar guarantees of those children. `ParsingError` wrapping is exception plumbing and is left out.
- `generic_visit` and `ass_tag_parser.common.flatten` (`ass.py:10-14`): the visitor mechanics are not modelled, and `flatten` (not part of this model) is taken as concatenation of the tag groups (`Flatten`).
- `visit_ass_line` (`ass.py:13-14`) has no function of its own: it flattens the line's folded chunks, and since each chunk folds to one item here, the flattened line is the chunks in order (`FlattenSingletons`), which is `AssLine(chunks)`.
- A `Comment` chunk standing directly in a line does not write back: `visit_ass_comment` (`ass.py:22-23`) keeps only the text between the braces, and the composer writes that text without braces (`ass_composer.py:54-55`). The model composes it the same way, and the write-back lemmas do not cover comments.
- Format.ReadDecimal carries no contract of its own beyond the `nat` result; what `int(text)` promises is stated by `ReadDecimalOfDecimalString`, `DecimalStringOfReadDecimal` and `IntToStringOfReadDecimal`.
- `visit_ass_chunk` (`ass.py:19-20`) returns the block's tags, and the line flattens them; the model wraps each block as one `TagList` chunk instead, because that is the shape the composer walks. `visit_ass_tag` and `visit_alpha_value` only pass a child through and need no function of their own.
- Floating point: every number is an integer. `float()` parsing is not modelled, and the smart float printer (not part of this model) is `str(n)` on whole values and `FormatTenths` on the karaoke `duration / 10`. Fractional coordinates, sizes and angles are not modelled.
- `MyIO` (not part of this model) is the `text` field of `Composer`; `contextlib` is replaced by `Enter`, the nested walk, and `Exit` in sequence.
- The `NotImplementedError` branch (`ass_composer.py:190-191`) cannot be reached, because `Item` is a closed datatype.
- The `ass_struct` classes (not part of this model) are replaced by `Item` and `AssLine`.
- `Composer.Enter` writes each plain tag's spelling in one write, where the visitor splits some spellings (fade, move, colour, alpha, clip) over several writes; the buffer ends the same.
- The visitor functions `walk_ass_line` and `walk_ass_line_ctx` are called with are fixed: `WalkAssLine` records the items visited, and `WalkAssLineCtx` records enter and exit events.
- AssSpelling.ComposeItemBalanced: brace balance is proved for lines whose text fields (plain text, comments, font names, style names, clip paths) hold no brace; the composer copies those fields verbatim, so a brace inside them is written as is.
- AssSpelling.HexBytesOfThree: stated for the three-byte colour argument and, in `HexBytesOfOne`, the one-byte alpha argument, the only lengths the composer writes, rather than for any number of bytes.
- AssFold.VisitInteger: states only the sign of the value read; its read-back is `Format.ReadIntegerOfIntToString`.
- AssFold.VisitColor: the rule does not record the target or the short spelling; the model's choice is the rule's target and the long spelling, so `\c` written short composes back as `\1c`.
- AssFold.Visit: `\fr` and `\frz` fold to the same rotation, and the model composes it as `\frz`.

## Findings

| source | as written | input that shows it | evidently intended | confidence | as-written member | corrected member |
|---|---|---|---|---|---|---|
| ass_tag_parser/ass.py:204-207 | legacy codes 5..7 (top row) become numpad 4..6 (middle row) and 9..11 (middle row) become 7..9 (top row) | `\a6` (top centre) folds to alignment 5, which `\an5` reads as middle centre | codes 5..7 become 7..9 and 9..11 become 4..6, so each code keeps its row and column | not executed | AssFold.LegacyToNumpadSwapsRows | AssFold.LegacyToNumpadByPosition |

The composer's renumbering back (`ass_composer.py:60-67`) is the exact inverse of the fold's, so a legacy tag still writes back to the same text (`LegacyRoundTrip`). The discrepancy shows only when the folded `alignment` is read as a numpad position, as `\an` values are. The model's `Visit` and `Prefix` keep the renumbering as written, because parse-then-compose is what the two files implement together. The corrected pair, `LegacyToNumpadByPosition` and `NumpadToLegacyByPosition`, keeps row and column and round-trips both ways (`PositionRoundTrip`).
