/**
 * The abstract syntax tree of one dialogue line's override-tag markup: the
 * interchange value between the tag fold and the composer. A line holds
 * chunks; a tag list (one `{...}` block) and an animation (`\t(...)`) hold
 * tags. Every item kind the composer dispatches on is one constructor of
 * `Item`, except that the four karaoke classes share the one constructor
 * `Karaoke`, told apart by its `kind`. Fields take the composer's names, except where two constructors
 * would share a name with different types: animation and move times are
 * `start`/`end` (the composer's `time1`/`time2`), alpha holds `alpha` (its
 * `value`), wrap style and Gaussian blur hold `value` (its `style` and
 * `weight`), bold's toggle is `boldEnabled` (its `enabled`) and a vector
 * clip's scale is `drawingScale` (its `scale`). Numbers are integers.
 */
module AssAst {

  datatype Option<T> = None | Some(value: T)

  /** The folded value of an optional grammar group `x?`: no match or one match. */
  type Opt<T> = s: seq<T> | |s| <= 1 witness []

  /** The four karaoke spellings `\k`, `\K`, `\kf` and `\ko`. */
  datatype KaraokeKind = K1 | K2 | K3 | K4

  datatype Item =
    | Text(text: string)
    | Comment(text: string)
    | TagList(tags: seq<Item>)
      // `\t([start,end,][acceleration,]tags)`
    | Animation(start: Option<int>, end: Option<int>, acceleration: Option<int>, tags: seq<Item>)
    | BaselineOffset(y: int)
    | DrawingMode(scale: int)
      // `alignment` is always on the 1..9 numpad scheme; `legacy` picks `\a` over `\an`
    | Alignment(alignment: int, legacy: bool)
    | Fade(time1: int, time2: int)
    | FadeComplex(alpha1: int, alpha2: int, alpha3: int, time1: int, time2: int, time3: int, time4: int)
    | Move(x1: int, y1: int, x2: int, y2: int, start: Option<int>, end: Option<int>)
      // target 1..4 is primary, secondary, border, shadow; `short` spells target 1 as `\c`
    | Color(red: Option<int>, green: Option<int>, blue: Option<int>, target: int, short: bool)
      // target 0 is all four alphas at once (`\alpha`)
    | Alpha(alpha: Option<int>, target: int)
    | ResetStyle(style: Option<string>)
    | Border(size: int)
    | XBorder(size: int)
    | YBorder(size: int)
    | Shadow(size: int)
    | XShadow(size: int)
    | YShadow(size: int)
    | XRotation(angle: int)
    | YRotation(angle: int)
    | ZRotation(angle: int, short: bool)
    | RotationOrigin(x: int, y: int)
    | Position(x: int, y: int)
    | XShear(value: int)
    | YShear(value: int)
    | FontName(name: string)
    | FontSize(size: int)
    | FontEncoding(encoding: int)
    | LetterSpacing(spacing: int)
    | FontXScale(scale: int)
    | FontYScale(scale: int)
    | BlurEdges(times: int)
    | BlurEdgesGauss(value: int)
      // hundredths of a second
    | Karaoke(kind: KaraokeKind, duration: int)
    | Italic(enabled: bool)
    | Underline(enabled: bool)
    | Strikeout(enabled: bool)
    | WrapStyle(value: int)
      // a weight (`\b700`) or a toggle (`\b1`)
    | Bold(weight: Option<int>, boldEnabled: Option<bool>)
    | ClipRectangle(x1: int, y1: int, x2: int, y2: int, inverse: bool)
    | ClipVector(drawingScale: Option<int>, path: string, inverse: bool)

  datatype AssLine = AssLine(chunks: seq<Item>)

  /** A colour channel or alpha value that fits in one byte. */
  predicate IsByte(n: int) { 0 <= n <= 255 }

  /** The two item kinds whose nested tags the traversal descends into. */
  predicate HasTags(item: Item) {
    item.TagList? || item.Animation?
  }

  /** What may stand directly in a line: plain text, a comment, or a `{...}` block. */
  predicate IsChunk(item: Item) {
    item.Text? || item.Comment? || item.TagList?
  }

  /** What may stand inside a `{...}` block or an animation. */
  predicate IsTag(item: Item) {
    !item.Text? && !item.TagList?
  }
}
