/** The text overlay drawn on a moon: the label wrapped greedily into lines,
    shrinking the font until it fits in four lines, and the row of link
    pills at the bottom whose rectangles become the click hotspots. Font
    sizes, pill padding and the gap between pills are laid out in the
    128 px design space; pill positions are in pixels of the overlay's own
    size (128 to 512 px). */
module Overlay {
  import opened Numeric
  import opened Wrappers

  /** A measured text width, never negative. */
  type Width = r: real | r >= 0.0

  /** ctx.measureText(text).width with the font set to the given pixel size. */
  type Measure = (string, int) -> Width

  /** The design size BASE_OVERLAY_PX that typography is laid out in. */
  const BASE_OVERLAY_PX: real := 128.0

  /** At most this many label lines are wanted. */
  const MAX_LABEL_LINES: nat := 4

  /** Math.round(S * 0.02), the smallest label font. */
  function MinFontPx(): int { Round(BASE_OVERLAY_PX * 0.02) }

  /** Math.round(S * 0.12), the label font the shrink loop starts from. */
  function StartFontPx(): int { Round(BASE_OVERLAY_PX * 0.12) }

  lemma FontBounds()
    ensures MinFontPx() == 3 && StartFontPx() == 15
  {
  }

  /** The state of the wrap loop: the finished lines and the current line. */
  datatype WrapState = WrapState(lines: seq<string>, cur: string)

  /** One word of the greedy wrap: the word is appended to the current line
      (after a space when the line is not empty) unless that overflows maxW
      and the line is not empty, in which case the line is finished and the
      word starts the next one. */
  function WrapStep(measure: Measure, font: int, maxW: int, st: WrapState, w: string): WrapState
  {
    var test := if st.cur != "" then st.cur + " " + w else w;
    if measure(test, font) > maxW as real && st.cur != "" then WrapState(st.lines + [st.cur], w)
    else WrapState(st.lines, test)
  }

  /** The wrap state after the given words. */
  function WrapWords(measure: Measure, font: int, maxW: int, words: seq<string>): WrapState
  {
    if words == [] then WrapState([], "")
    else WrapStep(measure, font, maxW, WrapWords(measure, font, maxW, words[..|words| - 1]), words[|words| - 1])
  }

  /** wrapWithFont: the lines, with the last line added when not empty. */
  function Wrap(measure: Measure, font: int, maxW: int, words: seq<string>): seq<string>
  {
    var st := WrapWords(measure, font, maxW, words);
    if st.cur != "" then st.lines + [st.cur] else st.lines
  }

  /** The words joined with single spaces. */
  function Join(ws: seq<string>): string
  {
    if ws == [] then ""
    else if |ws| == 1 then ws[0]
    else Join(ws[..|ws| - 1]) + " " + ws[|ws| - 1]
  }

  /** A line is kept only if it fits maxW, or it is a single word too wide
      for any line. */
  ghost predicate LineOk(measure: Measure, font: int, maxW: int, words: seq<string>, line: string)
  {
    measure(line, font) <= maxW as real || line in words
  }

  /** Every line the wrap produces fits the width, unless it is one word. */
  lemma {:induction false} WrapLinesFit(measure: Measure, font: int, maxW: int, words: seq<string>)
    ensures var st := WrapWords(measure, font, maxW, words);
      && (forall k :: 0 <= k < |st.lines| ==> LineOk(measure, font, maxW, words, st.lines[k]))
      && (st.cur == "" || LineOk(measure, font, maxW, words, st.cur))
  {
    if words != [] {
      var init := words[..|words| - 1];
      WrapLinesFit(measure, font, maxW, init);
      var st := WrapWords(measure, font, maxW, init);
      forall x | x in init
        ensures x in words
      {
        assert x == words[..|words| - 1][IndexOf(init, x)];
      }
      assert words[|words| - 1] in words;
    }
  }

  function IndexOf(s: seq<string>, x: string): (k: nat)
    requires x in s
    ensures k < |s| && s[k] == x
  {
    if s[0] == x then 0 else 1 + IndexOf(s[1..], x)
  }

  /** The wrap loses no word and adds none: with non-empty words, joining
      the lines with spaces gives back the words joined with spaces. */
  lemma {:induction false} WrapKeepsText(measure: Measure, font: int, maxW: int, words: seq<string>)
    requires forall k :: 0 <= k < |words| ==> words[k] != ""
    ensures Join(Wrap(measure, font, maxW, words)) == Join(words)
  {
    if words != [] {
      WrapKeepsTextState(measure, font, maxW, words);
    }
  }

  /** The invariant of the wrap loop behind WrapKeepsText. */
  lemma {:induction false} WrapKeepsTextState(measure: Measure, font: int, maxW: int, words: seq<string>)
    requires words != []
    requires forall k :: 0 <= k < |words| ==> words[k] != ""
    ensures WrapWords(measure, font, maxW, words).cur != ""
    ensures var st := WrapWords(measure, font, maxW, words); Join(st.lines + [st.cur]) == Join(words)
  {
    var init, w := words[..|words| - 1], words[|words| - 1];
    var st := WrapWords(measure, font, maxW, init);
    if init == [] {
      assert words == [w];
    } else {
      WrapKeepsTextState(measure, font, maxW, init);
      var test := st.cur + " " + w;
      if measure(test, font) > maxW as real {
        assert (st.lines + [st.cur] + [w])[..|st.lines + [st.cur]|] == st.lines + [st.cur];
      } else {
        var ls := st.lines + [test];
        if st.lines == [] {
          assert ls == [test];
          assert (st.lines + [st.cur]) == [st.cur];
        } else {
          assert ls[..|ls| - 1] == st.lines;
          assert (st.lines + [st.cur])[..|st.lines|] == st.lines;
        }
      }
    }
  }

  /** The label font loop: wrap at fontPx; stop when the lines are at most
      four or the font is at its minimum; otherwise one pixel smaller. */
  method FitLabel(measure: Measure, maxW: int, words: seq<string>) returns (fontPx: int, lines: seq<string>)
    ensures lines == Wrap(measure, fontPx, maxW, words)
    ensures MinFontPx() <= fontPx <= StartFontPx()
    ensures |lines| <= MAX_LABEL_LINES || fontPx == MinFontPx()
    ensures forall f :: fontPx < f <= StartFontPx() ==> |Wrap(measure, f, maxW, words)| > MAX_LABEL_LINES
  {
    var minFont := MinFontPx();
    fontPx := StartFontPx();
    FontBounds();
    lines := Wrap(measure, fontPx, maxW, words);
    while !(|lines| <= MAX_LABEL_LINES || fontPx <= minFont)
      invariant minFont <= fontPx <= StartFontPx()
      invariant lines == Wrap(measure, fontPx, maxW, words)
      invariant forall f :: fontPx < f <= StartFontPx() ==> |Wrap(measure, f, maxW, words)| > MAX_LABEL_LINES
      decreases fontPx
    {
      fontPx := if minFont >= fontPx - 1 then minFont else fontPx - 1;
      lines := Wrap(measure, fontPx, maxW, words);
    }
  }

  /** A link badge: its text (String(l.text ?? "")) and its href, if any. */
  datatype Link = Link(text: string, href: Option<string>)

  /** A pill's rectangle in overlay pixels, with its link. */
  datatype Hotspot = Hotspot(x: int, y: int, w: int, h: int, href: Option<string>, text: string)

  /** Math.round(S * 0.034), the pill's horizontal padding. */
  function PadX(): int { Round(BASE_OVERLAY_PX * 0.034) }

  /** Math.round(S * 0.02), the gap between pills. */
  function Gap(): int { Round(BASE_OVERLAY_PX * 0.02) }

  lemma PillConstants()
    ensures PadX() == 4 && Gap() == 3
  {
  }

  /** The pill text font: min(round(fontPx - 2), round(S * 0.07)). */
  function PillFont(fontPx: int): int
  {
    var a, b := fontPx - 2, Round(BASE_OVERLAY_PX * 0.07);
    if a <= b then a else b
  }

  /** A pill's width: the rounded-up text width plus the padding on both sides. */
  function PillWidth(measure: Measure, font: int, l: Link): (w: int)
    ensures w >= 8
  {
    PillConstants();
    Ceil(measure(l.text, font)) + 2 * PadX()
  }

  function WidthSum(measure: Measure, font: int, links: seq<Link>): int
  {
    if links == [] then 0 else WidthSum(measure, font, links[..|links| - 1]) + PillWidth(measure, font, links[|links| - 1])
  }

  /** The row width: the pill widths plus one gap between each pair. */
  function TotalWidth(measure: Measure, font: int, links: seq<Link>): int
  {
    WidthSum(measure, font, links) + Gap() * (if |links| >= 1 then |links| - 1 else 0)
  }

  /** The row's left edge: Math.round((size - totalW) / 2). */
  function RowStart(measure: Measure, font: int, size: int, links: seq<Link>): int
  {
    Round((size - TotalWidth(measure, font, links)) as real / 2.0)
  }

  /** The pill hotspots of an overlay of the given size whose label font is
      fontPx: laid out left to right from the row start at height
      round(size * 0.82), each round(fontPx * 1.15) tall. */
  method LayoutPills(measure: Measure, fontPx: int, size: int, links: seq<Link>) returns (hs: seq<Hotspot>)
    ensures |hs| == |links|
    ensures forall i :: 0 <= i < |hs| ==>
      && hs[i].w == PillWidth(measure, PillFont(fontPx), links[i])
      && hs[i].y == Round(size as real * 0.82) && hs[i].h == Round(fontPx as real * 1.15)
      && hs[i].href == links[i].href && hs[i].text == links[i].text
      && hs[i].x == RowStart(measure, PillFont(fontPx), size, links) + WidthSum(measure, PillFont(fontPx), links[..i]) + Gap() * i
  {
    var font := PillFont(fontPx);
    var padX, gap := PadX(), Gap();
    var pillH := Round(fontPx as real * 1.15);
    var yTop := Round(size as real * 0.82);
    var x := RowStart(measure, font, size, links);
    ghost var x0 := x;
    hs := [];
    var i := 0;
    while i < |links|
      invariant 0 <= i <= |links| && |hs| == i
      invariant x == x0 + WidthSum(measure, font, links[..i]) + gap * i
      invariant forall j :: 0 <= j < i ==>
        && hs[j].w == PillWidth(measure, font, links[j])
        && hs[j].y == yTop && hs[j].h == pillH
        && hs[j].href == links[j].href && hs[j].text == links[j].text
        && hs[j].x == x0 + WidthSum(measure, font, links[..j]) + gap * j
    {
      var w := Ceil(measure(links[i].text, font)) + padX * 2;
      hs := hs + [Hotspot(x, yTop, w, pillH, links[i].href, links[i].text)];
      assert links[..i + 1][..i] == links[..i];
      x := x + w + gap;
      i := i + 1;
    }
  }

  /** Neighbouring pills are exactly one gap apart and never overlap. */
  lemma PillsSpaced(measure: Measure, font: int, size: int, links: seq<Link>, i: nat)
    requires i + 1 < |links|
    ensures var x0 := RowStart(measure, font, size, links);
      var xi := x0 + WidthSum(measure, font, links[..i]) + Gap() * i;
      var xn := x0 + WidthSum(measure, font, links[..i + 1]) + Gap() * (i + 1);
      xn == xi + PillWidth(measure, font, links[i]) + Gap() && xi < xn
  {
    assert links[..i + 1][..i] == links[..i];
    PillConstants();
  }

  /** The row is centred: its margins on the left and on the right differ
      by at most one pixel. */
  lemma RowCentred(measure: Measure, font: int, size: int, links: seq<Link>)
    ensures var x0, total := RowStart(measure, font, size, links), TotalWidth(measure, font, links);
      -1 <= (size - (x0 + total)) - x0 <= 1
  {
  }

  /** The last pill ends where the row ends: row start plus total width. */
  lemma RowEndsAtTotal(measure: Measure, font: int, size: int, links: seq<Link>)
    requires links != []
    ensures var n := |links| - 1;
      RowStart(measure, font, size, links) + WidthSum(measure, font, links[..n]) + Gap() * n + PillWidth(measure, font, links[n])
      == RowStart(measure, font, size, links) + TotalWidth(measure, font, links)
  {
  }
}
