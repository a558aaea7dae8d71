/** The vector typeface of GraphicsTypes/Typeface.swift: the character to
    glyph mapping, the fixed glyph line tables, glyph bounding boxes, the
    `System` layout loop and `Font`, which delegates to its typeface.
    Coordinates are exact reals. */
module Typeface {
  import opened Wrappers
  import opened GraphicsTypes

  /** `System.GlyphName`. */
  datatype GlyphName = Zero | One | Two | Three | Four | Five | Six | Seven | Eight | Nine | Dot

  /** `System.Glyph`: a named list of line segments on a 4 x 5 grid. */
  datatype Glyph = Glyph(name: GlyphName, lines: seq<Line>)

  datatype Rectangle = Rectangle(bottomLeft: Point, topRight: Point)

  function Abs(x: real): real
  {
    if x < 0.0 then -x else x
  }

  /** `Rectangle.width`. */
  function RectangleWidth(r: Rectangle): (w: real)
    ensures w >= 0.0
    ensures w == r.topRight.x - r.bottomLeft.x || w == r.bottomLeft.x - r.topRight.x
  {
    Abs(r.topRight.x - r.bottomLeft.x)
  }

  // ---------------------------------------------------------------------
  // Character.glyphName

  /** The characters that have a glyph, in the order of `GlyphName`. */
  const GlyphCharacters: string := "0123456789."

  /** `Character.glyphName`: the ten decimal digits and '.' have a glyph;
      every other character has none. */
  function GlyphNameOf(c: char): (r: Option<GlyphName>)
    ensures r.Some? <==> c in GlyphCharacters
    ensures '0' <= c <= '9' ==> r.Some? && r.value != Dot
    ensures r == Some(Dot) <==> c == '.'
  {
    match c
    case '0' => Some(Zero)
    case '1' => Some(One)
    case '2' => Some(Two)
    case '3' => Some(Three)
    case '4' => Some(Four)
    case '5' => Some(Five)
    case '6' => Some(Six)
    case '7' => Some(Seven)
    case '8' => Some(Eight)
    case '9' => Some(Nine)
    case '.' => Some(Dot)
    case _ => None
  }

  /** The character each glyph is drawn for; the inverse of `GlyphNameOf`. */
  function CharacterOf(n: GlyphName): char
  {
    match n
    case Zero => '0'
    case One => '1'
    case Two => '2'
    case Three => '3'
    case Four => '4'
    case Five => '5'
    case Six => '6'
    case Seven => '7'
    case Eight => '8'
    case Nine => '9'
    case Dot => '.'
  }

  /** A character with a glyph is that glyph's character. */
  lemma CharacterOfGlyphNameOf(c: char)
    ensures GlyphNameOf(c).Some? ==> CharacterOf(GlyphNameOf(c).value) == c
  {
  }

  /** Every glyph is reached by exactly one character. */
  lemma GlyphNameRoundTrip(n: GlyphName, c: char)
    ensures GlyphNameOf(CharacterOf(n)) == Some(n)
    ensures GlyphNameOf(c) == Some(n) ==> c == CharacterOf(n)
  {
    CharacterOfGlyphNameOf(c);
    match n
    case Zero => case One => case Two => case Three => case Four => case Five =>
    case Six => case Seven => case Eight => case Nine => case Dot =>
  }

  // ---------------------------------------------------------------------
  // GlyphName.glyph: the line tables

  /** `GlyphName.glyph`: the fixed line table of each glyph. */
  function GlyphOf(n: GlyphName): (g: Glyph)
    ensures g.name == n
    ensures |g.lines| >= 3
  {
    match n
    case Zero => Glyph(n, ZeroLines)
    case One => Glyph(n, OneLines)
    case Two => Glyph(n, TwoLines)
    case Three => Glyph(n, ThreeLines)
    case Four => Glyph(n, FourLines)
    case Five => Glyph(n, FiveLines)
    case Six => Glyph(n, SixLines)
    case Seven => Glyph(n, SevenLines)
    case Eight => Glyph(n, EightLines)
    case Nine => Glyph(n, NineLines)
    case Dot => Glyph(n, DotLines)
  }

  const ZeroLines: seq<Line> :=
    [MakeLine(0.0, 5.0, 4.0, 5.0),
    MakeLine(4.0, 5.0, 4.0, 0.0),
    MakeLine(4.0, 0.0, 0.0, 0.0),
    MakeLine(0.0, 0.0, 0.0, 5.0),
    MakeLine(0.0, 0.0, 4.0, 5.0)]

  const OneLines: seq<Line> :=
    [MakeLine(1.0, 0.0, 3.0, 0.0),
    MakeLine(2.0, 0.0, 2.0, 5.0),
    MakeLine(2.0, 5.0, 1.0, 4.0)]

  const TwoLines: seq<Line> :=
    [MakeLine(0.0, 4.0, 0.0, 5.0),
    MakeLine(0.0, 5.0, 4.0, 5.0),
    MakeLine(4.0, 5.0, 4.0, 4.0),
    MakeLine(4.0, 4.0, 0.0, 1.0),
    MakeLine(0.0, 1.0, 0.0, 0.0),
    MakeLine(0.0, 0.0, 4.0, 0.0),
    MakeLine(4.0, 0.0, 4.0, 1.0)]

  const ThreeLines: seq<Line> :=
    [MakeLine(0.0, 4.0, 0.0, 5.0),
    MakeLine(0.0, 5.0, 4.0, 5.0),
    MakeLine(4.0, 5.0, 4.0, 4.0),
    MakeLine(4.0, 4.0, 2.0, 3.0),
    MakeLine(2.0, 3.0, 4.0, 2.0),
    MakeLine(4.0, 2.0, 4.0, 0.0),
    MakeLine(4.0, 0.0, 0.0, 0.0),
    MakeLine(0.0, 0.0, 0.0, 1.0)]

  const FourLines: seq<Line> :=
    [MakeLine(3.0, 5.0, 0.0, 2.0),
    MakeLine(0.0, 2.0, 4.0, 2.0),
    MakeLine(2.0, 2.5, 2.0, 0.0)]

  const FiveLines: seq<Line> :=
    [MakeLine(4.0, 4.0, 4.0, 5.0),
    MakeLine(4.0, 5.0, 0.0, 5.0),
    MakeLine(0.0, 5.0, 0.0, 2.5),
    MakeLine(0.0, 2.5, 4.0, 2.5),
    MakeLine(4.0, 2.5, 4.0, 0.0),
    MakeLine(4.0, 0.0, 0.0, 0.0),
    MakeLine(0.0, 0.0, 0.0, 1.0)]

  const SixLines: seq<Line> :=
    [MakeLine(4.0, 4.0, 4.0, 5.0),
    MakeLine(4.0, 5.0, 0.0, 5.0),
    MakeLine(0.0, 5.0, 0.0, 0.0),
    MakeLine(0.0, 0.0, 4.0, 0.0),
    MakeLine(4.0, 0.0, 4.0, 2.5),
    MakeLine(4.0, 2.5, 0.0, 2.5)]

  const SevenLines: seq<Line> :=
    [MakeLine(0.0, 4.0, 0.0, 5.0),
    MakeLine(0.0, 5.0, 4.0, 5.0),
    MakeLine(4.0, 5.0, 4.0, 3.5),
    MakeLine(4.0, 3.5, 0.0, 0.0)]

  const EightLines: seq<Line> :=
    [MakeLine(0.5, 5.0, 3.5, 5.0),
    MakeLine(3.5, 5.0, 4.0, 4.5),
    MakeLine(4.0, 4.5, 4.0, 3.0),
    MakeLine(4.0, 3.0, 3.0, 2.5),
    MakeLine(3.0, 2.5, 0.5, 2.5),
    MakeLine(0.5, 2.5, 0.0, 2.0),
    MakeLine(0.0, 2.0, 0.0, 0.5),
    MakeLine(0.0, 0.5, 0.5, 0.0),
    MakeLine(0.5, 0.0, 3.5, 0.0),
    MakeLine(3.5, 0.0, 4.0, 0.5),
    MakeLine(4.0, 0.5, 4.0, 2.0),
    MakeLine(4.0, 2.0, 3.0, 2.5),
    MakeLine(0.5, 5.0, 0.0, 4.5),
    MakeLine(0.0, 4.5, 0.0, 3.0),
    MakeLine(0.0, 3.0, 0.25, 2.5)]

  const NineLines: seq<Line> :=
    [MakeLine(0.0, 5.0, 4.0, 5.0),
    MakeLine(4.0, 5.0, 4.0, 0.0),
    MakeLine(4.0, 2.5, 0.0, 2.5),
    MakeLine(0.0, 2.5, 0.0, 5.0)]

  const DotLines: seq<Line> :=
    [MakeLine(0.0, 0.0, 0.5, 0.0),
    MakeLine(0.5, 0.0, 0.5, 0.5),
    MakeLine(0.5, 0.5, 0.0, 0.5),
    MakeLine(0.0, 0.5, 0.0, 0.0)]

  /** The number of segments in each glyph's table. */
  lemma GlyphLineCounts()
    ensures |GlyphOf(Zero).lines| == 5 && |GlyphOf(One).lines| == 3
    ensures |GlyphOf(Two).lines| == 7 && |GlyphOf(Three).lines| == 8
    ensures |GlyphOf(Four).lines| == 3 && |GlyphOf(Five).lines| == 7
    ensures |GlyphOf(Six).lines| == 6 && |GlyphOf(Seven).lines| == 4
    ensures |GlyphOf(Eight).lines| == 15 && |GlyphOf(Nine).lines| == 4
    ensures |GlyphOf(Dot).lines| == 4
  {
  }

  // ---------------------------------------------------------------------
  // Bounding boxes: Array<Double>.min / .max and Glyph.boundingBox

  /** `Array<Double>.min` on a non-empty array: a left fold that keeps the
      running value unless the next element is smaller. */
  function MinValue(xs: seq<real>): (m: real)
    requires |xs| >= 1
    ensures m in xs
    ensures forall i :: 0 <= i < |xs| ==> m <= xs[i]
  {
    if |xs| == 1 then xs[0]
    else
      var previous := MinValue(xs[..|xs| - 1]);
      var next := xs[|xs| - 1];
      if next < previous then next else previous
  }

  /** `Array<Double>.max` on a non-empty array. */
  function MaxValue(xs: seq<real>): (m: real)
    requires |xs| >= 1
    ensures m in xs
    ensures forall i :: 0 <= i < |xs| ==> xs[i] <= m
  {
    if |xs| == 1 then xs[0]
    else
      var previous := MaxValue(xs[..|xs| - 1]);
      var next := xs[|xs| - 1];
      if next > previous then next else previous
  }

  /** `lines.flatMap { [$0.start.x, $0.end.x] }`. */
  function XValues(lines: seq<Line>): (xs: seq<real>)
    ensures |xs| == 2 * |lines|
    ensures forall i :: 0 <= i < |lines| ==> xs[2 * i] == lines[i].start.x && xs[2 * i + 1] == lines[i].end.x
  {
    if lines == [] then [] else [lines[0].start.x, lines[0].end.x] + XValues(lines[1..])
  }

  /** `lines.flatMap { [$0.start.y, $0.end.y] }`. */
  function YValues(lines: seq<Line>): (ys: seq<real>)
    ensures |ys| == 2 * |lines|
    ensures forall i :: 0 <= i < |lines| ==> ys[2 * i] == lines[i].start.y && ys[2 * i + 1] == lines[i].end.y
  {
    if lines == [] then [] else [lines[0].start.y, lines[0].end.y] + YValues(lines[1..])
  }

  /** `Glyph.boundingBox` of a glyph with at least one segment: the smallest
      rectangle holding every segment, since each of its sides is touched by
      some segment end. */
  function BoundingBox(g: Glyph): (r: Rectangle)
    requires |g.lines| >= 1
    ensures forall i :: 0 <= i < |g.lines| ==>
              r.bottomLeft.x <= g.lines[i].start.x <= r.topRight.x &&
              r.bottomLeft.x <= g.lines[i].end.x <= r.topRight.x &&
              r.bottomLeft.y <= g.lines[i].start.y <= r.topRight.y &&
              r.bottomLeft.y <= g.lines[i].end.y <= r.topRight.y
    ensures r.bottomLeft.x in XValues(g.lines) && r.topRight.x in XValues(g.lines)
    ensures r.bottomLeft.y in YValues(g.lines) && r.topRight.y in YValues(g.lines)
  {
    var xs := XValues(g.lines);
    var ys := YValues(g.lines);
    Rectangle(Point(MinValue(xs), MinValue(ys)), Point(MaxValue(xs), MaxValue(ys)))
  }

  /** The bounding-box width of a table glyph. */
  function GlyphWidth(n: GlyphName): real
  {
    RectangleWidth(BoundingBox(GlyphOf(n)))
  }

  /** Every x coordinate of `lines` lies in `[lo, hi]`. */
  predicate XWithin(lines: seq<Line>, lo: real, hi: real)
  {
    forall i :: 0 <= i < |lines| ==> lo <= lines[i].start.x <= hi && lo <= lines[i].end.x <= hi
  }

  lemma {:induction false} XValuesWithin(lines: seq<Line>, lo: real, hi: real)
    requires XWithin(lines, lo, hi)
    ensures forall k :: 0 <= k < |XValues(lines)| ==> lo <= XValues(lines)[k] <= hi
  {
    if lines != [] {
      XValuesWithin(lines[1..], lo, hi);
    }
  }

  /** A glyph whose x coordinates span exactly `[lo, hi]` is `hi - lo` wide. */
  lemma WidthOfSpan(g: Glyph, lo: real, hi: real, a: nat, b: nat)
    requires XWithin(g.lines, lo, hi)
    requires a < |g.lines| && g.lines[a].start.x == lo
    requires b < |g.lines| && g.lines[b].end.x == hi
    ensures RectangleWidth(BoundingBox(g)) == hi - lo
  {
    var xs := XValues(g.lines);
    XValuesWithin(g.lines, lo, hi);
    assert xs[2 * a] == lo && xs[2 * b + 1] == hi;
  }

  // One lemma per table: each glyph's width is proved on its own, since
  // unfolding several tables in one proof is far more expensive.
  lemma ZeroWidth() ensures GlyphWidth(Zero) == 4.0 { WidthOfSpan(GlyphOf(Zero), 0.0, 4.0, 0, 0); }
  lemma OneWidth() ensures GlyphWidth(One) == 2.0 { WidthOfSpan(GlyphOf(One), 1.0, 3.0, 0, 0); }
  lemma TwoWidth() ensures GlyphWidth(Two) == 4.0 { WidthOfSpan(GlyphOf(Two), 0.0, 4.0, 0, 1); }
  lemma ThreeWidth() ensures GlyphWidth(Three) == 4.0 { WidthOfSpan(GlyphOf(Three), 0.0, 4.0, 0, 1); }
  lemma FourWidth() ensures GlyphWidth(Four) == 4.0 { WidthOfSpan(GlyphOf(Four), 0.0, 4.0, 1, 1); }
  lemma FiveWidth() ensures GlyphWidth(Five) == 4.0 { WidthOfSpan(GlyphOf(Five), 0.0, 4.0, 2, 3); }
  lemma SixWidth() ensures GlyphWidth(Six) == 4.0 { WidthOfSpan(GlyphOf(Six), 0.0, 4.0, 2, 3); }
  lemma SevenWidth() ensures GlyphWidth(Seven) == 4.0 { WidthOfSpan(GlyphOf(Seven), 0.0, 4.0, 0, 1); }
  lemma EightWidth() ensures GlyphWidth(Eight) == 4.0 { WidthOfSpan(GlyphOf(Eight), 0.0, 4.0, 6, 1); }
  lemma NineWidth() ensures GlyphWidth(Nine) == 4.0 { WidthOfSpan(GlyphOf(Nine), 0.0, 4.0, 3, 0); }
  lemma DotWidth() ensures GlyphWidth(Dot) == 0.5 { WidthOfSpan(GlyphOf(Dot), 0.0, 0.5, 0, 0); }

  /** The bounding-box widths of the glyph tables: every digit is 4 units
      wide except `one` (2 units); the dot is half a unit wide. The layout
      below is stated with these values, which `GlyphWidths` proves equal to
      the computed bounding boxes. */
  function BoxWidth(n: GlyphName): real
  {
    match n
    case One => 2.0
    case Dot => 0.5
    case _ => 4.0
  }

  /** The width `Glyph.boundingBox` computes for each table glyph. */
  lemma GlyphWidths(n: GlyphName)
    ensures GlyphWidth(n) == BoxWidth(n)
  {
    match n
    case Zero => ZeroWidth();
    case One => OneWidth();
    case Two => TwoWidth();
    case Three => ThreeWidth();
    case Four => FourWidth();
    case Five => FiveWidth();
    case Six => SixWidth();
    case Seven => SevenWidth();
    case Eight => EightWidth();
    case Nine => NineWidth();
    case Dot => DotWidth();
  }

  // ---------------------------------------------------------------------
  // [Line].offset(by:) and [Line].scaled(by:)

  function Translate(p: Point, delta: Point): Point
  {
    Point(p.x + delta.x, p.y + delta.y)
  }

  function ScalePoint(p: Point, scale: real): Point
  {
    Point(p.x * scale, p.y * scale)
  }

  /** `[Line].offset(by:)`: every segment moved by `delta`, count and order kept. */
  function Offset(lines: seq<Line>, delta: Point): (r: seq<Line>)
    ensures |r| == |lines|
  {
    seq(|lines|, i requires 0 <= i < |lines| => Line(Translate(lines[i].start, delta), Translate(lines[i].end, delta)))
  }

  /** `[Line].scaled(by:)`: every coordinate multiplied by `scale`, count and
      order kept. */
  function Scaled(lines: seq<Line>, scale: real): (r: seq<Line>)
    ensures |r| == |lines|
  {
    seq(|lines|, i requires 0 <= i < |lines| => Line(ScalePoint(lines[i].start, scale), ScalePoint(lines[i].end, scale)))
  }

  /** Offsetting back by the opposite point restores the segments. */
  lemma OffsetInverse(lines: seq<Line>, delta: Point)
    ensures Offset(Offset(lines, delta), Point(-delta.x, -delta.y)) == lines
  {
    var back := Offset(Offset(lines, delta), Point(-delta.x, -delta.y));
    assert forall i :: 0 <= i < |lines| ==> back[i] == lines[i];
  }

  /** Offsetting distributes over concatenation: it works segment by segment. */
  lemma OffsetAppend(a: seq<Line>, b: seq<Line>, delta: Point)
    ensures Offset(a + b, delta) == Offset(a, delta) + Offset(b, delta)
  {
  }

  /** Two successive scalings equal one scaling by the product, so the
      layout's double scaling (by 1/5, then by the size) can be done once. */
  lemma ScaledTwice(lines: seq<Line>, a: real, b: real)
    ensures Scaled(Scaled(lines, a), b) == Scaled(lines, a * b)
  {
    var twice := Scaled(Scaled(lines, a), b);
    var once := Scaled(lines, a * b);
    forall i | 0 <= i < |lines|
      ensures twice[i] == once[i]
    {
      var l := lines[i];
      assert l.start.x * a * b == l.start.x * (a * b);
      assert l.start.y * a * b == l.start.y * (a * b);
      assert l.end.x * a * b == l.end.x * (a * b);
      assert l.end.y * a * b == l.end.y * (a * b);
    }
  }

  /** Scaling by a non-zero factor is undone by scaling by its inverse. */
  lemma ScaledInverse(lines: seq<Line>, scale: real)
    requires scale != 0.0
    ensures Scaled(Scaled(lines, scale), 1.0 / scale) == lines
  {
    var inverse := 1.0 / scale;
    assert scale * inverse == 1.0;
    ScaledTwice(lines, scale, inverse);
    var once := Scaled(lines, 1.0);
    forall i | 0 <= i < |lines|
      ensures once[i] == lines[i]
    {
      var l := lines[i];
      assert l.start.x * 1.0 == l.start.x && l.start.y * 1.0 == l.start.y;
      assert l.end.x * 1.0 == l.end.x && l.end.y * 1.0 == l.end.y;
    }
  }

  // ---------------------------------------------------------------------
  // System.linesForString

  /** The loop state of `System.linesForString`: the lines emitted so far, the
      previous glyph (the source keeps the `Glyph` value, which its name
      determines) and the offset accumulator. */
  datatype LayoutState = LayoutState(lines: seq<Line>, previous: Option<GlyphName>, offset: real)

  /** The width of the previous glyph, 0 before any glyph. */
  function PreviousWidth(previous: Option<GlyphName>): (w: real)
    ensures w >= 0.0
  {
    match previous
    case None => 0.0
    case Some(n) => BoxWidth(n)
  }

  /** `previousGlyph.boundingBox.width`, computed from the glyph's table. */
  method MeasureGlyph(n: GlyphName) returns (width: real)
    ensures width == BoxWidth(n)
  {
    width := RectangleWidth(BoundingBox(GlyphOf(n)));
    GlyphWidths(n);
  }

  /** One iteration of the layout loop. The accumulator is advanced before the
      glyph lookup, so a character without a glyph still moves it, and leaves
      `previous` as it was. */
  function LayoutStep(st: LayoutState, c: char): (r: LayoutState)
    ensures r.offset == st.offset + 1.0 + PreviousWidth(st.previous) && r.offset > st.offset
    ensures GlyphNameOf(c).None? ==> r.lines == st.lines && r.previous == st.previous
    ensures GlyphNameOf(c).Some? ==> r.previous == GlyphNameOf(c)
  {
    var offset := st.offset + (PreviousWidth(st.previous) + 1.0);
    match GlyphNameOf(c)
    case None => st.(offset := offset)
    case Some(n) => LayoutState(st.lines + Offset(GlyphOf(n).lines, Point(offset, 0.0)), Some(n), offset)
  }

  /** The loop state after the characters of `s`, in string order. Every
      character, with or without a glyph, advances the offset by at least one
      unit. */
  function LayoutOf(s: string): (r: LayoutState)
    ensures r.offset >= |s| as real
    ensures s == [] ==> r.lines == [] && r.previous == None
  {
    if s == [] then LayoutState([], None, 0.0) else LayoutStep(LayoutOf(s[..|s| - 1]), s[|s| - 1])
  }

  /** The normalising factor of the 4 x 5 glyph grid. */
  const ScaleToNormalize: real := 1.0 / 5.0

  /** What `System.linesForString(s, size:)` returns. */
  function SystemLines(s: string, size: real): seq<Line>
  {
    Scaled(Scaled(LayoutOf(s).lines, ScaleToNormalize), size)
  }

  /** One pass of the layout loop over character `c`: the accumulator is
      advanced by the previous glyph's width plus one, then a character
      without a glyph is skipped, and one with a glyph appends its lines at
      the new offset and becomes the previous glyph. */
  method LayoutCharacter(allLines: seq<Line>, previousGlyph: Option<GlyphName>, offsetAccumulator: real, c: char)
    returns (allLines': seq<Line>, previousGlyph': Option<GlyphName>, offsetAccumulator': real)
    ensures LayoutState(allLines', previousGlyph', offsetAccumulator')
         == LayoutStep(LayoutState(allLines, previousGlyph, offsetAccumulator), c)
  {
    var offset: real;
    if previousGlyph.Some? {
      offset := MeasureGlyph(previousGlyph.value);
    } else {
      offset := 0.0;
    }
    offsetAccumulator' := offsetAccumulator + offset + 1.0;
    allLines', previousGlyph' := allLines, previousGlyph;
    var name := GlyphNameOf(c);
    if name.None? {
      return;
    }
    var lines := Offset(GlyphOf(name.value).lines, Point(offsetAccumulator', 0.0));
    allLines' := allLines + lines;
    previousGlyph' := name;
  }

  /** `System.linesForString`. It never returns nil. */
  method SystemLinesForString(s: string, size: real) returns (r: Option<seq<Line>>)
    ensures r == Some(SystemLines(s, size))
  {
    var allLines: seq<Line> := [];
    var previousGlyph: Option<GlyphName> := None;
    var offsetAccumulator: real := 0.0;
    for i := 0 to |s|
      invariant LayoutOf(s[..i]) == LayoutState(allLines, previousGlyph, offsetAccumulator)
    {
      assert s[..i + 1][..i] == s[..i];
      allLines, previousGlyph, offsetAccumulator := LayoutCharacter(allLines, previousGlyph, offsetAccumulator, s[i]);
    }
    assert s[..|s|] == s;
    r := Some(Scaled(Scaled(allLines, ScaleToNormalize), size));
  }

  /** The number of segments a string's mapped characters contribute, counted
      from the front. */
  function GlyphLineCount(s: string): nat
  {
    if s == [] then 0
    else
      (match GlyphNameOf(s[0]) case None => 0 case Some(n) => |GlyphOf(n).lines|) + GlyphLineCount(s[1..])
  }

  lemma {:induction false} GlyphLineCountAppend(s: string, c: char)
    ensures GlyphLineCount(s + [c]) == GlyphLineCount(s) + GlyphLineCount([c])
  {
    if s != [] {
      assert (s + [c])[1..] == s[1..] + [c];
      GlyphLineCountAppend(s[1..], c);
    }
  }

  /** The layout emits exactly the segments of the mapped characters' glyphs. */
  lemma {:induction false} LayoutLineCount(s: string, size: real)
    ensures |LayoutOf(s).lines| == GlyphLineCount(s)
    ensures |SystemLines(s, size)| == GlyphLineCount(s)
  {
    if s != [] {
      var init := s[..|s| - 1];
      LayoutLineCount(init, size);
      GlyphLineCountAppend(init, s[|s| - 1]);
      assert init + [s[|s| - 1]] == s;
    }
  }

  /** The empty string yields no lines, at any size. */
  lemma EmptyStringHasNoLines(size: real)
    ensures SystemLines("", size) == []
  {
  }

  /** Appending characters never changes the lines already emitted: the
      output is in string order. */
  lemma {:induction false} LayoutKeepsEarlierLines(s: string, t: string)
    ensures LayoutOf(s).lines <= LayoutOf(s + t).lines
  {
    if t != [] {
      var init := t[..|t| - 1];
      LayoutKeepsEarlierLines(s, init);
      assert (s + t)[..|s + t| - 1] == s + init;
      var before := LayoutOf(s + init).lines;
      var after := LayoutOf(s + t).lines;
      assert before <= after by {
        assert after == before || after == before + after[|before|..];
      }
      var first := LayoutOf(s).lines;
      assert after[..|before|][..|first|] == after[..|first|];
    } else {
      assert s + t == s;
    }
  }

  /** The last character of `s` that has a glyph, found from the front. */
  function LastMapped(s: string): Option<GlyphName>
  {
    if s == [] then None
    else
      match LastMapped(s[1..])
      case Some(n) => Some(n)
      case None => GlyphNameOf(s[0])
  }

  lemma {:induction false} LastMappedAppend(s: string, c: char)
    ensures LastMapped(s + [c]) == if GlyphNameOf(c).Some? then GlyphNameOf(c) else LastMapped(s)
  {
    if s != [] {
      assert (s + [c])[1..] == s[1..] + [c];
      LastMappedAppend(s[1..], c);
    }
  }

  /** The loop's `previousGlyph` is the last mapped character: characters
      without a glyph do not reset it. */
  lemma {:induction false} PreviousIsLastMapped(s: string)
    ensures LayoutOf(s).previous == LastMapped(s)
  {
    if s != [] {
      var init := s[..|s| - 1];
      PreviousIsLastMapped(init);
      LastMappedAppend(init, s[|s| - 1]);
      assert init + [s[|s| - 1]] == s;
    }
  }

  /** Each character moves the offset by 1 plus the width of the last mapped
      glyph before it (0 before any); a character with a glyph draws it at the
      new offset, and one without a glyph draws nothing. */
  lemma LayoutAdvance(s: string, c: char)
    ensures LayoutOf(s + [c]).offset == LayoutOf(s).offset + 1.0 + PreviousWidth(LastMapped(s))
    ensures GlyphNameOf(c).None? ==> LayoutOf(s + [c]).lines == LayoutOf(s).lines
    ensures GlyphNameOf(c).Some? ==>
              LayoutOf(s + [c]).lines == LayoutOf(s).lines + Offset(GlyphOf(GlyphNameOf(c).value).lines, Point(LayoutOf(s + [c]).offset, 0.0))
  {
    assert (s + [c])[..|s|] == s;
    PreviousIsLastMapped(s);
  }

  /** A string that starts with a mapped character draws that glyph at x
      offset 1. */
  lemma FirstGlyphAtOffsetOne(c: char)
    requires GlyphNameOf(c).Some?
    ensures LayoutOf([c]).lines == Offset(GlyphOf(GlyphNameOf(c).value).lines, Point(1.0, 0.0))
  {
    assert [c][..0] == [];
    var lines := GlyphOf(GlyphNameOf(c).value).lines;
    assert LayoutOf([c]).lines == [] + Offset(lines, Point(1.0, 0.0));
  }

  /** "1a5": the unmapped 'a' draws nothing but still moves the offset by
      1 + width(one), and the '5' then advances by the width of the '1'
      again, because `previousGlyph` is still the one. */
  lemma LayoutExample()
    ensures LayoutOf("1a5").offset == 7.0
    ensures |LayoutOf("1a5").lines| == 10
  {
    assert "1a5"[..2] == "1a" && "1a"[..1] == "1" && "1"[..0] == "";
    assert LayoutOf("1").offset == 1.0 && |LayoutOf("1").lines| == 3 && LayoutOf("1").previous == Some(One);
    assert LayoutOf("1a").offset == 4.0 && |LayoutOf("1a").lines| == 3 && LayoutOf("1a").previous == Some(One);
  }

  // ---------------------------------------------------------------------
  // Font

  /** The `Typeface` protocol's one requirement, `linesForString(_:size:)`. */
  type TypefaceLayout = (string, real) -> Option<seq<Line>>

  /** `Font.TypefaceName`. */
  datatype TypefaceName = System

  /** `Font`: a size and the typeface it delegates to. */
  datatype Font = Font(size: real, typeFace: TypefaceLayout)

  /** The `System` typeface as a `Typeface` value. */
  function SystemTypeface(): TypefaceLayout
  {
    (s: string, size: real) => Some(SystemLines(s, size))
  }

  /** `Font.init(_:size:)`. */
  function FontNamed(name: TypefaceName, size: real): (f: Font)
    ensures f.size == size
    ensures forall s :: f.typeFace(s, size) == Some(SystemLines(s, size))
  {
    match name
    case System => Font(size, SystemTypeface())
  }

  /** `Font.linesForString`: delegates to the typeface with the font's size. */
  function FontLinesForString(font: Font, s: string): (r: Option<seq<Line>>)
    ensures font.typeFace == SystemTypeface() ==> r == Some(SystemLines(s, font.size))
  {
    font.typeFace(s, font.size)
  }

  /** A font made by `Font.init` lays text out with the `System` typeface at
      its own size, and so never yields nil. */
  lemma SystemFontLines(name: TypefaceName, size: real, s: string)
    ensures FontLinesForString(FontNamed(name, size), s) == Some(SystemLines(s, size))
    ensures FontLinesForString(FontNamed(name, size), s).Some?
  {
  }
}
