/**
 The four kinds of line of an I Ching hexagram, the three-coin total that
 names each of them, and the one-line text glyph each is drawn as.
 */
module Lines {

  /** An unsigned byte: the width of a coin value and of the sum of three. */
  newtype u8 = x: int | 0 <= x < 0x100

  datatype Option<+T> = None | Some(value: T)

  /** A line is broken (yin) or solid (yang), and changing or static. */
  datatype Line = ChangingYin | ChangingYang | StaticYin | StaticYang

  /** Six lines, in the order they were drawn (bottom line first). */
  type Hexagram = h: seq<Line> | |h| == 6
    witness [StaticYang, StaticYang, StaticYang, StaticYang, StaticYang, StaticYang]

  /** The number of characters in every glyph. */
  const GlyphWidth: nat := 11

  /** A yang line is drawn solid, a yin line broken. */
  predicate IsYang(l: Line) {
    l.ChangingYang? || l.StaticYang?
  }

  /** A changing line is one that turns into its opposite. */
  predicate IsChanging(l: Line) {
    l.ChangingYin? || l.ChangingYang?
  }

  /** The traditional number of a line: the three-coin total that yields it.
      Odd numbers are yang and the extremes 6 and 9 are the changing lines. */
  function Code(l: Line): (c: u8)
    ensures 6 <= c <= 9
    ensures IsYang(l) <==> c % 2 == 1
    ensures IsChanging(l) <==> (c == 6 || c == 9)
  {
    match l
    case ChangingYin => 6
    case StaticYang => 7
    case StaticYin => 8
    case ChangingYang => 9
  }

  /** Distinct lines have distinct numbers, so a number names at most one line. */
  lemma CodeInjective(a: Line, b: Line)
    ensures Code(a) == Code(b) <==> a == b
  {
  }

  /** The classification of a three-coin total. `None` stands for the
      arm of the match that panics on any total outside 6..9. */
  function Classify(total: u8): (r: Option<Line>)
    ensures r.Some? <==> 6 <= total <= 9
    ensures forall l :: r == Some(l) <==> Code(l) == total
  {
    match total
    case 6 => Some(ChangingYin)
    case 7 => Some(StaticYang)
    case 8 => Some(StaticYin)
    case 9 => Some(ChangingYang)
    case _ => None
  }

  /** The decimal digit character for 0..9. */
  function Digit(n: u8): (d: char)
    requires n <= 9
    ensures '0' <= d <= '9'
    ensures d as int - '0' as int == n as int
  {
    ('0' as int + n as int) as char
  }

  /** The fixed text of each line: a gap in the middle for yin, an `x` or an
      `o` at the centre for a changing line, and the line's number last. */
  function Glyph(l: Line): (g: string)
    ensures |g| == GlyphWidth
    ensures '\n' !in g
    ensures g[GlyphWidth - 1] == Digit(Code(l))
    ensures g[3] == ' ' <==> !IsYang(l)
    ensures (g[4] == 'x' || g[4] == 'o') <==> IsChanging(l)
  {
    match l
    case ChangingYin => "--- x --- 6"
    case StaticYang => "--------- 7"
    case StaticYin => "---   --- 8"
    case ChangingYang => "----o---- 9"
  }

  /** The glyph of a line determines the line: the four glyphs are pairwise distinct. */
  lemma GlyphInjective(a: Line, b: Line)
    ensures Glyph(a) == Glyph(b) <==> a == b
  {
    if Glyph(a) == Glyph(b) {
      assert Digit(Code(a)) == Digit(Code(b));
    }
  }

  /** Reads a glyph back: the line whose glyph is exactly `g`, if any. */
  function ParseGlyph(g: string): (r: Option<Line>)
    ensures forall l :: r == Some(l) <==> Glyph(l) == g
  {
    if g == Glyph(ChangingYin) then Some(ChangingYin)
    else if g == Glyph(StaticYang) then Some(StaticYang)
    else if g == Glyph(StaticYin) then Some(StaticYin)
    else if g == Glyph(ChangingYang) then Some(ChangingYang)
    else None
  }
}
