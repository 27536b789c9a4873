/**
 The canonical text of a hexagram: its six glyphs in draw order, one per
 line, and the parser that reads such a text back.
 */
module Encoding {
  import opened Lines
  import opened Text

  /** The glyph of every line, position by position. */
  function Glyphs(ls: seq<Line>): (gs: seq<string>)
    ensures |gs| == |ls|
    ensures forall i :: 0 <= i < |ls| ==> gs[i] == Glyph(ls[i])
  {
    if |ls| == 0 then [] else [Glyph(ls[0])] + Glyphs(ls[1..])
  }

  /** Joining glyph-width parts with newlines: part `i` starts at offset
      `12 * i` and is followed by a newline unless it is the last. */
  lemma {:induction false} JoinLayout(parts: seq<string>)
    requires |parts| >= 1
    requires forall i :: 0 <= i < |parts| ==> |parts[i]| == GlyphWidth
    ensures |Join(parts, "\n")| == 12 * |parts| - 1
    ensures forall i :: 0 <= i < |parts| ==>
      12 * i + 11 <= |Join(parts, "\n")| &&
      Join(parts, "\n")[12 * i .. 12 * i + 11] == parts[i]
    ensures forall i :: 0 <= i < |parts| - 1 ==>
      12 * i + 12 <= |Join(parts, "\n")| &&
      Join(parts, "\n")[12 * i .. 12 * i + 12] == parts[i] + "\n"
  {
    var r := Join(parts, "\n");
    if |parts| > 1 {
      var tail := parts[1..];
      var rt := Join(tail, "\n");
      JoinLayout(tail);
      assert r == parts[0] + "\n" + rt;
      forall i | 0 <= i < |parts|
        ensures 12 * i + 11 <= |r| && r[12 * i .. 12 * i + 11] == parts[i]
      {
        if i > 0 {
          assert tail[i - 1] == parts[i];
          assert r[12 * i .. 12 * i + 11] == rt[12 * (i - 1) .. 12 * (i - 1) + 11];
        }
      }
      forall i | 0 <= i < |parts| - 1
        ensures 12 * i + 12 <= |r| && r[12 * i .. 12 * i + 12] == parts[i] + "\n"
      {
        if i > 0 {
          assert tail[i - 1] == parts[i];
          assert r[12 * i .. 12 * i + 12] == rt[12 * (i - 1) .. 12 * (i - 1) + 12];
        }
      }
    }
  }

  /** The text of a hexagram: the glyphs of its six lines, first drawn first,
      separated by single newlines. It is 6 * 11 + 5 = 71 characters long,
      glyph `i` sits at offset `12 * i` followed by a newline (except the
      last), there are exactly five newlines and none at either end, and
      cutting it at the newlines gives back the six glyphs. */
  function Format(h: Hexagram): (r: string)
    ensures |r| == 71
    ensures forall i :: 0 <= i < 6 ==> r[12 * i .. 12 * i + 11] == Glyph(h[i])
    ensures forall i :: 0 <= i < 5 ==> r[12 * i .. 12 * i + 12] == Glyph(h[i]) + "\n"
    ensures Count(r, '\n') == 5
    ensures r[0] != '\n' && r[|r| - 1] != '\n'
    ensures Split(r, '\n') == Glyphs(h)
  {
    var gs := Glyphs(h);
    JoinLayout(gs);
    SplitJoin(gs, '\n');
    var r := Join(gs, "\n");
    assert r[0] == r[0 .. 11][0] == Glyph(h[0])[0];
    assert r[70] == r[60 .. 71][10] == Glyph(h[5])[10];
    r
  }

  /** Reads each piece as a glyph; fails if any piece is not one. */
  function ParseLines(parts: seq<string>): (r: Option<seq<Line>>)
    ensures r.Some? <==> forall i :: 0 <= i < |parts| ==> ParseGlyph(parts[i]).Some?
    ensures r.Some? ==> |r.value| == |parts| && Glyphs(r.value) == parts
  {
    if |parts| == 0 then Some([])
    else
      match (ParseGlyph(parts[0]), ParseLines(parts[1..]))
      case (Some(l), Some(ls)) =>
        assert Glyphs([l] + ls) == [Glyph(l)] + Glyphs(ls);
        assert [parts[0]] + parts[1..] == parts;
        Some([l] + ls)
      case (_, _) =>
        None
  }

  /** Reads the text of a hexagram back: exactly six newline-separated
      pieces, each of them a glyph. */
  function Parse(text: string): Option<Hexagram>
  {
    var parts := Split(text, '\n');
    if |parts| != 6 then None
    else
      match ParseLines(parts)
      case Some(ls) => Some(ls)
      case None => None
  }

  /** Two lists of lines with the same glyphs are the same list. */
  lemma {:induction false} GlyphsInjective(a: seq<Line>, b: seq<Line>)
    requires Glyphs(a) == Glyphs(b)
    ensures a == b
  {
    forall i | 0 <= i < |a|
      ensures a[i] == b[i]
    {
      assert Glyph(a[i]) == Glyphs(a)[i] == Glyphs(b)[i] == Glyph(b[i]);
      GlyphInjective(a[i], b[i]);
    }
  }

  /** The text of a hexagram reads back as that hexagram. */
  lemma ParseFormat(h: Hexagram)
    ensures Parse(Format(h)) == Some(h)
  {
    var parts := Split(Format(h), '\n');
    assert parts == Glyphs(h);
    forall i | 0 <= i < |parts|
      ensures ParseGlyph(parts[i]).Some?
    {
      assert parts[i] == Glyph(h[i]);
    }
    var ls := ParseLines(parts).value;
    GlyphsInjective(ls, h);
  }

  /** A text reads back as a hexagram exactly when it is that hexagram's text. */
  lemma EncodingBijective(h: Hexagram, text: string)
    ensures Parse(text) == Some(h) <==> Format(h) == text
  {
    if Format(h) == text {
      ParseFormat(h);
    }
    if Parse(text) == Some(h) {
      var parts := Split(text, '\n');
      assert Glyphs(h) == parts;
      JoinSplit(text, '\n');
      SplitJoin(Glyphs(h), '\n');
      assert Join(Glyphs(h), "\n") == Join(parts, "\n") == text;
    }
  }

  /** Different hexagrams never have the same text. */
  lemma FormatInjective(a: Hexagram, b: Hexagram)
    ensures Format(a) == Format(b) <==> a == b
  {
    if Format(a) == Format(b) {
      ParseFormat(a);
      ParseFormat(b);
    }
  }
}
