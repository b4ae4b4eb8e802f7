/**
 * The decorative barcode printed on a ticket: each character of the ticket
 * id becomes four widths taken from its character code; the first and third
 * are drawn as black bars, the second and fourth are gaps, and a running x
 * position moves past each width plus one unit.
 */
module Barcode {
  import opened Decimal

  /** `char.charCodeAt(0)`: the character's code point, which identifies it. */
  function Code(c: char): (r: nat)
    ensures r < 0x11_0000 && !(0xD800 <= r < 0xE000) && r as char == c
  {
    c as int
  }

  /**
   * The four widths of a character: `(code % 3) + 1`, `((code >> 2) % 2) + 1`,
   * `((code >> 4) % 3) + 1`, `((code >> 6) % 2) + 1` (shifts of a non-negative
   * code are divisions by powers of two).
   */
  function Widths(code: nat): (ws: seq<int>)
    ensures |ws| == 4
    ensures 1 <= ws[0] <= 3 && 1 <= ws[1] <= 2 && 1 <= ws[2] <= 3 && 1 <= ws[3] <= 2
  {
    [(code % 3) + 1, ((code / 4) % 2) + 1, ((code / 16) % 3) + 1, ((code / 64) % 2) + 1]
  }

  /** One `<rect>`: its x position and width (y, height and fill are fixed). */
  datatype Rect = Rect(x: int, width: int)

  const RectOpen := "<rect x=\""
  const RectMiddle := "\" y=\"0\" width=\""
  const RectClose := "\" height=\"40\" fill=\"black\"/>"

  /** `<rect x="${x}" y="0" width="${w}" height="40" fill="black"/>`; its layout is `RenderRectLayout`. */
  function RenderRect(r: Rect): (s: string)
    ensures |s| > |RectOpen| + |RectClose|
  {
    RectOpen + IntToString(r.x) + (RectMiddle + IntToString(r.width)) + RectClose
  }

  /**
   * A rect's markup: the fixed opening, then x, then `" y="0" width="` and the
   * width, then the fixed height and fill.
   */
  lemma RenderRectLayout(r: Rect)
    ensures var s := RenderRect(r);
            var xs := IntToString(r.x);
            && |s| == |RectOpen| + |xs| + |RectMiddle| + |IntToString(r.width)| + |RectClose|
            && s[..|RectOpen|] == RectOpen
            && s[|RectOpen|..|RectOpen| + |xs|] == xs
            && s[|RectOpen| + |xs|..|s| - |RectClose|] == RectMiddle + IntToString(r.width)
            && s[|s| - |RectClose|..] == RectClose
  {
    FourParts(RectOpen, IntToString(r.x), RectMiddle + IntToString(r.width), RectClose);
  }

  lemma FourParts(a: string, b: string, c: string, d: string)
    ensures var s := a + b + c + d;
            && s[..|a|] == a && s[|a|..|a| + |b|] == b
            && s[|a| + |b|..|s| - |d|] == c && s[|s| - |d|..] == d
  {
  }

  function RenderEach(rs: seq<Rect>): (ls: seq<string>)
    ensures |ls| == |rs|
    ensures forall i :: 0 <= i < |rs| ==> ls[i] == RenderRect(rs[i])
  {
    seq(|rs|, i requires 0 <= i < |rs| => RenderRect(rs[i]))
  }

  lemma RenderEachAppend(a: seq<Rect>, b: seq<Rect>)
    ensures RenderEach(a + b) == RenderEach(a) + RenderEach(b)
  {
    var l, la, lb := RenderEach(a + b), RenderEach(a), RenderEach(b);
    forall i | 0 <= i < |a + b| ensures l[i] == (la + lb)[i] {
      if i < |a| {
        assert (a + b)[i] == a[i] && (la + lb)[i] == la[i];
      } else {
        assert (a + b)[i] == b[i - |a|] && (la + lb)[i] == lb[i - |a|];
      }
    }
  }

  /** `lines.join('')`. */
  function Concat(ls: seq<string>): (r: string)
    ensures ls != [] ==> |r| >= |ls[|ls| - 1]| && r[|r| - |ls[|ls| - 1]|..] == ls[|ls| - 1]
    ensures (forall i :: 0 <= i < |ls| ==> |ls[i]| > 0) ==> |r| >= |ls|
  {
    if ls == [] then "" else Concat(ls[..|ls| - 1]) + ls[|ls| - 1]
  }

  /** How far x moves over the widths `ws`: each width plus a one-unit space. */
  function Advance(ws: seq<int>): int {
    if ws == [] then 0 else Advance(ws[..|ws| - 1]) + ws[|ws| - 1] + 1
  }

  /** The bars drawn for widths `ws` starting at `x0`: one for each even position. */
  function WidthRects(ws: seq<int>, x0: int): seq<Rect> {
    if ws == [] then []
    else
      var j := |ws| - 1;
      WidthRects(ws[..j], x0) + (if j % 2 == 0 then [Rect(x0 + Advance(ws[..j]), ws[j])] else [])
  }

  /** How far x moves over all the characters of `cs`. */
  function Travel(cs: string): int {
    if cs == [] then 0 else Travel(cs[..|cs| - 1]) + Advance(Widths(Code(cs[|cs| - 1])))
  }

  /** All bars for `cs`, the first character starting at `x0`. */
  function BarcodeRects(cs: string, x0: int): seq<Rect> {
    if cs == [] then []
    else
      var k := |cs| - 1;
      BarcodeRects(cs[..k], x0) + WidthRects(Widths(Code(cs[k])), x0 + Travel(cs[..k]))
  }

  /**
   * The inner `widths.forEach` of `generateBarcodeLines`: push a bar for each
   * even position and move x past every width.
   */
  method DrawWidths(widths: seq<int>, x0: int, lines0: seq<string>) returns (x: int, lines: seq<string>)
    ensures x == x0 + Advance(widths)
    ensures lines == lines0 + RenderEach(WidthRects(widths, x0))
  {
    x, lines := x0, lines0;
    var j := 0;
    while j < |widths|
      invariant 0 <= j <= |widths|
      invariant x == x0 + Advance(widths[..j])
      invariant lines == lines0 + RenderEach(WidthRects(widths[..j], x0))
    {
      var w := widths[j];
      assert widths[..j + 1][..j] == widths[..j];
      ghost var added := if j % 2 == 0 then [Rect(x, w)] else [];
      assert WidthRects(widths[..j + 1], x0) == WidthRects(widths[..j], x0) + added;
      RenderEachAppend(WidthRects(widths[..j], x0), added);
      if j % 2 == 0 {
        lines := lines + [RenderRect(Rect(x, w))];
      }
      x := x + w + 1;
      j := j + 1;
    }
    assert widths[..j] == widths;
  }

  /** Drawing character k extends the x travelled and the rendered bars of the first k characters. */
  lemma DrawNextCharacter(id: string, k: nat)
    requires k < |id|
    ensures Travel(id[..k + 1]) == Travel(id[..k]) + Advance(Widths(Code(id[k])))
    ensures RenderEach(BarcodeRects(id[..k + 1], 10)) ==
            RenderEach(BarcodeRects(id[..k], 10)) + RenderEach(WidthRects(Widths(Code(id[k])), 10 + Travel(id[..k])))
  {
    BarcodeRectsSnoc(id, k);
    RenderEachAppend(BarcodeRects(id[..k], 10), WidthRects(Widths(Code(id[k])), 10 + Travel(id[..k])));
  }

  lemma BarcodeRectsSnoc(id: string, k: nat)
    requires k < |id|
    ensures Travel(id[..k + 1]) == Travel(id[..k]) + Advance(Widths(Code(id[k])))
    ensures BarcodeRects(id[..k + 1], 10) ==
            BarcodeRects(id[..k], 10) + WidthRects(Widths(Code(id[k])), 10 + Travel(id[..k]))
  {
    assert id[..k + 1][..k] == id[..k] && id[..k + 1][k] == id[k];
  }

  /** `generateBarcodeLines`: the markup of all bars, in order. */
  method GenerateBarcodeLines(id: string) returns (svg: string)
    ensures svg == Concat(RenderEach(BarcodeRects(id, 10)))
  {
    var lines: seq<string> := [];
    var x := 10;
    var k := 0;
    while k < |id|
      invariant 0 <= k <= |id|
      invariant x == 10 + Travel(id[..k])
      invariant lines == RenderEach(BarcodeRects(id[..k], 10))
    {
      var widths := Widths(Code(id[k]));
      DrawNextCharacter(id, k);
      x, lines := DrawWidths(widths, x, lines);
      k := k + 1;
    }
    assert id[..k] == id;
    svg := Concat(lines);
  }

  // ---------------------------------------------------------------------------
  // Layout properties
  // ---------------------------------------------------------------------------

  /**
   * One character draws exactly two bars, the first at x and the second past
   * the first bar and the first gap; x then moves on by 8 to 14 units.
   */
  lemma CharacterBars(code: nat, x: int)
    ensures var ws := Widths(code);
            && WidthRects(ws, x) == [Rect(x, ws[0]), Rect(x + ws[0] + ws[1] + 2, ws[2])]
            && Advance(ws) == ws[0] + ws[1] + ws[2] + ws[3] + 4
            && 8 <= Advance(ws) <= 14
  {
    var ws := Widths(code);
    assert ws[..4] == ws;
    assert ws[..4][..3] == ws[..3] && ws[..3][..2] == ws[..2] && ws[..2][..1] == ws[..1] && ws[..1][..0] == [];
    assert Advance(ws[..1]) == ws[0] + 1;
    assert Advance(ws[..2]) == ws[0] + ws[1] + 2;
    assert Advance(ws[..3]) == ws[0] + ws[1] + ws[2] + 3;
    assert WidthRects(ws[..1], x) == [Rect(x, ws[0])];
    assert WidthRects(ws[..2], x) == [Rect(x, ws[0])];
    assert WidthRects(ws[..3], x) == [Rect(x, ws[0]), Rect(x + ws[0] + ws[1] + 2, ws[2])];
  }

  /** Two bars per character. */
  lemma {:induction false} BarcodeLength(cs: string, x0: int)
    ensures |BarcodeRects(cs, x0)| == 2 * |cs|
    decreases |cs|
  {
    if cs != [] {
      var k := |cs| - 1;
      BarcodeLength(cs[..k], x0);
      CharacterBars(Code(cs[k]), x0 + Travel(cs[..k]));
    }
  }

  /** Where the bars of character `i` sit: at the x reached after the characters before it. */
  lemma {:induction false} BarcodeLayout(cs: string, x0: int, i: nat)
    requires i < |cs|
    ensures |BarcodeRects(cs, x0)| == 2 * |cs|
    ensures var ws := Widths(Code(cs[i]));
            var start := x0 + Travel(cs[..i]);
            && BarcodeRects(cs, x0)[2 * i] == Rect(start, ws[0])
            && BarcodeRects(cs, x0)[2 * i + 1] == Rect(start + ws[0] + ws[1] + 2, ws[2])
    decreases |cs|
  {
    var k := |cs| - 1;
    var front := BarcodeRects(cs[..k], x0);
    BarcodeLength(cs, x0);
    BarcodeLength(cs[..k], x0);
    CharacterBars(Code(cs[k]), x0 + Travel(cs[..k]));
    if i < k {
      BarcodeLayout(cs[..k], x0, i);
      assert cs[..k][..i] == cs[..i] && cs[..k][i] == cs[i];
      assert BarcodeRects(cs, x0)[2 * i] == front[2 * i];
      assert BarcodeRects(cs, x0)[2 * i + 1] == front[2 * i + 1];
    }
  }

  lemma {:induction false} IncreasingFromAdjacent(rs: seq<Rect>)
    requires forall m :: 0 <= m < |rs| - 1 ==> rs[m].x < rs[m + 1].x
    ensures forall m, n :: 0 <= m < n < |rs| ==> rs[m].x < rs[n].x
    decreases |rs|
  {
    if |rs| > 1 {
      var front := rs[..|rs| - 1];
      IncreasingFromAdjacent(front);
      forall m, n | 0 <= m < n < |rs| ensures rs[m].x < rs[n].x {
        if n < |rs| - 1 {
          assert front[m] == rs[m] && front[n] == rs[n];
        } else if m < n - 1 {
          assert front[m] == rs[m] && front[n - 1] == rs[n - 1];
        }
      }
    }
  }

  /**
   * The barcode of an id: two bars per character, every bar 1 to 3 units wide,
   * the first bar at x = 10, and the bars strictly left to right.
   */
  lemma BarcodeShape(id: string)
    ensures var rs := BarcodeRects(id, 10);
            && |rs| == 2 * |id|
            && (forall m :: 0 <= m < |rs| ==> 1 <= rs[m].width <= 3)
            && (|rs| > 0 ==> rs[0].x == 10)
            && (forall m, n :: 0 <= m < n < |rs| ==> rs[m].x < rs[n].x)
  {
    var rs := BarcodeRects(id, 10);
    BarcodeLength(id, 10);
    forall m | 0 <= m < |rs| ensures 1 <= rs[m].width <= 3 {
      BarcodeWidth(id, m);
    }
    if |rs| > 0 {
      BarcodeLayout(id, 10, 0);
      assert id[..0] == [];
    }
    forall m | 0 <= m < |rs| - 1 ensures rs[m].x < rs[m + 1].x {
      BarcodeStep(id, m);
    }
    IncreasingFromAdjacent(rs);
  }

  lemma BarcodeWidth(id: string, m: nat)
    requires m < 2 * |id|
    ensures |BarcodeRects(id, 10)| == 2 * |id|
    ensures 1 <= BarcodeRects(id, 10)[m].width <= 3
  {
    var i := m / 2;
    BarcodeLayout(id, 10, i);
    assert m == 2 * i || m == 2 * i + 1;
  }

  lemma BarcodeStep(id: string, m: nat)
    requires m + 1 < 2 * |id|
    ensures |BarcodeRects(id, 10)| == 2 * |id|
    ensures BarcodeRects(id, 10)[m].x < BarcodeRects(id, 10)[m + 1].x
  {
    var rs := BarcodeRects(id, 10);
    var i := m / 2;
    var ws := Widths(Code(id[i]));
    var start := 10 + Travel(id[..i]);
    BarcodeLayout(id, 10, i);
    if m % 2 == 0 {
      assert m == 2 * i;
      assert rs[m].x == start && rs[m + 1].x == start + ws[0] + ws[1] + 2;
    } else {
      assert m == 2 * i + 1 && m + 1 == 2 * (i + 1);
      BarcodeLayout(id, 10, i + 1);
      BarcodeRectsSnoc(id, i);
      CharacterBars(Code(id[i]), 0);
      assert rs[m].x == start + ws[0] + ws[1] + 2;
      assert rs[m + 1].x == start + Advance(ws);
    }
  }

  lemma {:induction false} ConcatEmpty(ls: seq<string>)
    requires forall i :: 0 <= i < |ls| ==> |ls[i]| > 0
    ensures Concat(ls) == [] <==> ls == []
    decreases |ls|
  {
    if ls != [] {
      ConcatEmpty(ls[..|ls| - 1]);
    }
  }

  /** The barcode markup is empty exactly for the empty id. */
  lemma EmptyBarcodeOnlyForEmptyId(id: string)
    ensures Concat(RenderEach(BarcodeRects(id, 10))) == [] <==> id == []
  {
    BarcodeLength(id, 10);
    var rs := BarcodeRects(id, 10);
    ConcatEmpty(RenderEach(rs));
  }
}
