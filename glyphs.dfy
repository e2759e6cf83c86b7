/**
 * The static dot-matrix font of the morphing clock face: every digit is a
 * grid of 15 rows by 8 columns of cells, drawn as a seven-segment LED digit.
 */
module Glyphs {

  const Rows: nat := 15
  const Cols: nat := 8

  /** One dot of the matrix: 1 = lit, 0 = unlit. */
  type Cell = x: int | x == 0 || x == 1

  /** One row of a digit: exactly eight cells. */
  type Row = r: seq<Cell> | |r| == Cols witness [0, 0, 0, 0, 0, 0, 0, 0]

  /** A digit's dot matrix: exactly fifteen rows. */
  type Bitmap = b: seq<Row> | |b| == Rows
    witness var z: Row := [0, 0, 0, 0, 0, 0, 0, 0]; [z, z, z, z, z, z, z, z, z, z, z, z, z, z, z]

  /** The seven bars of an LED digit. */
  datatype Segment = Top | UpperLeft | UpperRight | Middle | LowerLeft | LowerRight | Bottom

  /** The segments the usual seven-segment display lights for a digit; none for any other value. */
  function Segments(d: int): (s: set<Segment>)
    ensures 0 <= d <= 9 <==> s != {}
  {
    match d
    case 0 => {Top, UpperLeft, UpperRight, LowerLeft, LowerRight, Bottom}
    case 1 => {UpperRight, LowerRight}
    case 2 => {Top, UpperRight, Middle, LowerLeft, Bottom}
    case 3 => {Top, UpperRight, Middle, LowerRight, Bottom}
    case 4 => {UpperLeft, UpperRight, Middle, LowerRight}
    case 5 => {Top, UpperLeft, Middle, LowerRight, Bottom}
    case 6 => {Top, UpperLeft, Middle, LowerLeft, LowerRight, Bottom}
    case 7 => {Top, UpperRight, LowerRight}
    case 8 => {Top, UpperLeft, UpperRight, Middle, LowerLeft, LowerRight, Bottom}
    case 9 => {Top, UpperLeft, UpperRight, Middle, LowerRight, Bottom}
    case _ => {}
  }

  /** The value of a cell that belongs to segment g. */
  function On(s: set<Segment>, g: Segment): Cell
  {
    if g in s then 1 else 0
  }

  /** A horizontal bar: the six inner cells of a row, the corners unlit. */
  function Bar(c: Cell): Row
  {
    [0, c, c, c, c, c, c, 0]
  }

  /** A row crossed by the left and right vertical segments only. */
  function Sides(left: Cell, right: Cell): Row
  {
    [left, 0, 0, 0, 0, 0, 0, right]
  }

  /**
   * The face with exactly the segments s lit: the top bar on row 0, the upper
   * verticals on rows 1..6, the middle bar on row 7, the lower verticals on
   * rows 8..13 and the bottom bar on row 14.
   */
  function Render(s: set<Segment>): Bitmap
  {
    var upper := Sides(On(s, UpperLeft), On(s, UpperRight));
    var lower := Sides(On(s, LowerLeft), On(s, LowerRight));
    [Bar(On(s, Top)), upper, upper, upper, upper, upper, upper,
     Bar(On(s, Middle)), lower, lower, lower, lower, lower, lower,
     Bar(On(s, Bottom))]
  }

  /** The unlit face; a freshly allocated int[15][8] holds it. */
  const Blank: Bitmap := Render({})

  /**
   * The settled glyph of a digit, as updateArray returns it: the digit drawn
   * on the seven-segment face. Any value outside 0..9 lights no segment.
   */
  function Glyph(d: int): Bitmap
  {
    match d
    case 0 => GlyphZero()
    case 1 => GlyphOne()
    case 2 => GlyphTwo()
    case 3 => GlyphThree()
    case 4 => GlyphFour()
    case 5 => GlyphFive()
    case 6 => GlyphSix()
    case 7 => GlyphSeven()
    case 8 => GlyphEight()
    case 9 => GlyphNine()
    case _ => GlyphOther()
  }

  /** The dot matrix of the digit zero. */
  function GlyphZero(): Bitmap
  {
    [
      [0, 1, 1, 1, 1, 1, 1, 0],
      [1, 0, 0, 0, 0, 0, 0, 1],
      [1, 0, 0, 0, 0, 0, 0, 1],
      [1, 0, 0, 0, 0, 0, 0, 1],
      [1, 0, 0, 0, 0, 0, 0, 1],
      [1, 0, 0, 0, 0, 0, 0, 1],
      [1, 0, 0, 0, 0, 0, 0, 1],
      [0, 0, 0, 0, 0, 0, 0, 0],
      [1, 0, 0, 0, 0, 0, 0, 1],
      [1, 0, 0, 0, 0, 0, 0, 1],
      [1, 0, 0, 0, 0, 0, 0, 1],
      [1, 0, 0, 0, 0, 0, 0, 1],
      [1, 0, 0, 0, 0, 0, 0, 1],
      [1, 0, 0, 0, 0, 0, 0, 1],
      [0, 1, 1, 1, 1, 1, 1, 0]
    ]
  }

  /** The dot matrix of the digit one. */
  function GlyphOne(): Bitmap
  {
    [
      [0, 0, 0, 0, 0, 0, 0, 0],
      [0, 0, 0, 0, 0, 0, 0, 1],
      [0, 0, 0, 0, 0, 0, 0, 1],
      [0, 0, 0, 0, 0, 0, 0, 1],
      [0, 0, 0, 0, 0, 0, 0, 1],
      [0, 0, 0, 0, 0, 0, 0, 1],
      [0, 0, 0, 0, 0, 0, 0, 1],
      [0, 0, 0, 0, 0, 0, 0, 0],
      [0, 0, 0, 0, 0, 0, 0, 1],
      [0, 0, 0, 0, 0, 0, 0, 1],
      [0, 0, 0, 0, 0, 0, 0, 1],
      [0, 0, 0, 0, 0, 0, 0, 1],
      [0, 0, 0, 0, 0, 0, 0, 1],
      [0, 0, 0, 0, 0, 0, 0, 1],
      [0, 0, 0, 0, 0, 0, 0, 0]
    ]
  }

  /** The dot matrix of the digit two. */
  function GlyphTwo(): Bitmap
  {
    [
      [0, 1, 1, 1, 1, 1, 1, 0],
      [0, 0, 0, 0, 0, 0, 0, 1],
      [0, 0, 0, 0, 0, 0, 0, 1],
      [0, 0, 0, 0, 0, 0, 0, 1],
      [0, 0, 0, 0, 0, 0, 0, 1],
      [0, 0, 0, 0, 0, 0, 0, 1],
      [0, 0, 0, 0, 0, 0, 0, 1],
      [0, 1, 1, 1, 1, 1, 1, 0],
      [1, 0, 0, 0, 0, 0, 0, 0],
      [1, 0, 0, 0, 0, 0, 0, 0],
      [1, 0, 0, 0, 0, 0, 0, 0],
      [1, 0, 0, 0, 0, 0, 0, 0],
      [1, 0, 0, 0, 0, 0, 0, 0],
      [1, 0, 0, 0, 0, 0, 0, 0],
      [0, 1, 1, 1, 1, 1, 1, 0]
    ]
  }

  /** The dot matrix of the digit three. */
  function GlyphThree(): Bitmap
  {
    [
      [0, 1, 1, 1, 1, 1, 1, 0],
      [0, 0, 0, 0, 0, 0, 0, 1],
      [0, 0, 0, 0, 0, 0, 0, 1],
      [0, 0, 0, 0, 0, 0, 0, 1],
      [0, 0, 0, 0, 0, 0, 0, 1],
      [0, 0, 0, 0, 0, 0, 0, 1],
      [0, 0, 0, 0, 0, 0, 0, 1],
      [0, 1, 1, 1, 1, 1, 1, 0],
      [0, 0, 0, 0, 0, 0, 0, 1],
      [0, 0, 0, 0, 0, 0, 0, 1],
      [0, 0, 0, 0, 0, 0, 0, 1],
      [0, 0, 0, 0, 0, 0, 0, 1],
      [0, 0, 0, 0, 0, 0, 0, 1],
      [0, 0, 0, 0, 0, 0, 0, 1],
      [0, 1, 1, 1, 1, 1, 1, 0]
    ]
  }

  /** The dot matrix of the digit four. */
  function GlyphFour(): Bitmap
  {
    [
      [0, 0, 0, 0, 0, 0, 0, 0],
      [1, 0, 0, 0, 0, 0, 0, 1],
      [1, 0, 0, 0, 0, 0, 0, 1],
      [1, 0, 0, 0, 0, 0, 0, 1],
      [1, 0, 0, 0, 0, 0, 0, 1],
      [1, 0, 0, 0, 0, 0, 0, 1],
      [1, 0, 0, 0, 0, 0, 0, 1],
      [0, 1, 1, 1, 1, 1, 1, 0],
      [0, 0, 0, 0, 0, 0, 0, 1],
      [0, 0, 0, 0, 0, 0, 0, 1],
      [0, 0, 0, 0, 0, 0, 0, 1],
      [0, 0, 0, 0, 0, 0, 0, 1],
      [0, 0, 0, 0, 0, 0, 0, 1],
      [0, 0, 0, 0, 0, 0, 0, 1],
      [0, 0, 0, 0, 0, 0, 0, 0]
    ]
  }

  /** The dot matrix of the digit five. */
  function GlyphFive(): Bitmap
  {
    [
      [0, 1, 1, 1, 1, 1, 1, 0],
      [1, 0, 0, 0, 0, 0, 0, 0],
      [1, 0, 0, 0, 0, 0, 0, 0],
      [1, 0, 0, 0, 0, 0, 0, 0],
      [1, 0, 0, 0, 0, 0, 0, 0],
      [1, 0, 0, 0, 0, 0, 0, 0],
      [1, 0, 0, 0, 0, 0, 0, 0],
      [0, 1, 1, 1, 1, 1, 1, 0],
      [0, 0, 0, 0, 0, 0, 0, 1],
      [0, 0, 0, 0, 0, 0, 0, 1],
      [0, 0, 0, 0, 0, 0, 0, 1],
      [0, 0, 0, 0, 0, 0, 0, 1],
      [0, 0, 0, 0, 0, 0, 0, 1],
      [0, 0, 0, 0, 0, 0, 0, 1],
      [0, 1, 1, 1, 1, 1, 1, 0]
    ]
  }

  /** The dot matrix of the digit six. */
  function GlyphSix(): Bitmap
  {
    [
      [0, 1, 1, 1, 1, 1, 1, 0],
      [1, 0, 0, 0, 0, 0, 0, 0],
      [1, 0, 0, 0, 0, 0, 0, 0],
      [1, 0, 0, 0, 0, 0, 0, 0],
      [1, 0, 0, 0, 0, 0, 0, 0],
      [1, 0, 0, 0, 0, 0, 0, 0],
      [1, 0, 0, 0, 0, 0, 0, 0],
      [0, 1, 1, 1, 1, 1, 1, 0],
      [1, 0, 0, 0, 0, 0, 0, 1],
      [1, 0, 0, 0, 0, 0, 0, 1],
      [1, 0, 0, 0, 0, 0, 0, 1],
      [1, 0, 0, 0, 0, 0, 0, 1],
      [1, 0, 0, 0, 0, 0, 0, 1],
      [1, 0, 0, 0, 0, 0, 0, 1],
      [0, 1, 1, 1, 1, 1, 1, 0]
    ]
  }

  /** The dot matrix of the digit seven. */
  function GlyphSeven(): Bitmap
  {
    [
      [0, 1, 1, 1, 1, 1, 1, 0],
      [0, 0, 0, 0, 0, 0, 0, 1],
      [0, 0, 0, 0, 0, 0, 0, 1],
      [0, 0, 0, 0, 0, 0, 0, 1],
      [0, 0, 0, 0, 0, 0, 0, 1],
      [0, 0, 0, 0, 0, 0, 0, 1],
      [0, 0, 0, 0, 0, 0, 0, 1],
      [0, 0, 0, 0, 0, 0, 0, 0],
      [0, 0, 0, 0, 0, 0, 0, 1],
      [0, 0, 0, 0, 0, 0, 0, 1],
      [0, 0, 0, 0, 0, 0, 0, 1],
      [0, 0, 0, 0, 0, 0, 0, 1],
      [0, 0, 0, 0, 0, 0, 0, 1],
      [0, 0, 0, 0, 0, 0, 0, 1],
      [0, 0, 0, 0, 0, 0, 0, 0]
    ]
  }

  /** The dot matrix of the digit eight. */
  function GlyphEight(): Bitmap
  {
    [
      [0, 1, 1, 1, 1, 1, 1, 0],
      [1, 0, 0, 0, 0, 0, 0, 1],
      [1, 0, 0, 0, 0, 0, 0, 1],
      [1, 0, 0, 0, 0, 0, 0, 1],
      [1, 0, 0, 0, 0, 0, 0, 1],
      [1, 0, 0, 0, 0, 0, 0, 1],
      [1, 0, 0, 0, 0, 0, 0, 1],
      [0, 1, 1, 1, 1, 1, 1, 0],
      [1, 0, 0, 0, 0, 0, 0, 1],
      [1, 0, 0, 0, 0, 0, 0, 1],
      [1, 0, 0, 0, 0, 0, 0, 1],
      [1, 0, 0, 0, 0, 0, 0, 1],
      [1, 0, 0, 0, 0, 0, 0, 1],
      [1, 0, 0, 0, 0, 0, 0, 1],
      [0, 1, 1, 1, 1, 1, 1, 0]
    ]
  }

  /** The dot matrix of the digit nine. */
  function GlyphNine(): Bitmap
  {
    [
      [0, 1, 1, 1, 1, 1, 1, 0],
      [1, 0, 0, 0, 0, 0, 0, 1],
      [1, 0, 0, 0, 0, 0, 0, 1],
      [1, 0, 0, 0, 0, 0, 0, 1],
      [1, 0, 0, 0, 0, 0, 0, 1],
      [1, 0, 0, 0, 0, 0, 0, 1],
      [1, 0, 0, 0, 0, 0, 0, 1],
      [0, 1, 1, 1, 1, 1, 1, 0],
      [0, 0, 0, 0, 0, 0, 0, 1],
      [0, 0, 0, 0, 0, 0, 0, 1],
      [0, 0, 0, 0, 0, 0, 0, 1],
      [0, 0, 0, 0, 0, 0, 0, 1],
      [0, 0, 0, 0, 0, 0, 0, 1],
      [0, 0, 0, 0, 0, 0, 0, 1],
      [0, 1, 1, 1, 1, 1, 1, 0]
    ]
  }

  /** The dot matrix updateArray returns for a value outside 0..9. */
  function GlyphOther(): Bitmap
  {
    [
      [0, 0, 0, 0, 0, 0, 0, 0],
      [0, 0, 0, 0, 0, 0, 0, 0],
      [0, 0, 0, 0, 0, 0, 0, 0],
      [0, 0, 0, 0, 0, 0, 0, 0],
      [0, 0, 0, 0, 0, 0, 0, 0],
      [0, 0, 0, 0, 0, 0, 0, 0],
      [0, 0, 0, 0, 0, 0, 0, 0],
      [0, 0, 0, 0, 0, 0, 0, 0],
      [0, 0, 0, 0, 0, 0, 0, 0],
      [0, 0, 0, 0, 0, 0, 0, 0],
      [0, 0, 0, 0, 0, 0, 0, 0],
      [0, 0, 0, 0, 0, 0, 0, 0],
      [0, 0, 0, 0, 0, 0, 0, 0],
      [0, 0, 0, 0, 0, 0, 0, 0],
      [0, 0, 0, 0, 0, 0, 0, 0]
    ]
  }

  /** The font is the seven-segment face: each glyph lights exactly its digit's segments. */
  lemma GlyphIsSevenSegment(d: int)
    ensures Glyph(d) == Render(Segments(d))
  {
    match d
    case 0 => GlyphZeroIsSevenSegment();
    case 1 => GlyphOneIsSevenSegment();
    case 2 => GlyphTwoIsSevenSegment();
    case 3 => GlyphThreeIsSevenSegment();
    case 4 => GlyphFourIsSevenSegment();
    case 5 => GlyphFiveIsSevenSegment();
    case 6 => GlyphSixIsSevenSegment();
    case 7 => GlyphSevenIsSevenSegment();
    case 8 => GlyphEightIsSevenSegment();
    case 9 => GlyphNineIsSevenSegment();
    case _ => GlyphOtherIsBlank();
  }

  lemma GlyphZeroIsSevenSegment()
    ensures GlyphZero() == Render(Segments(0))
  {
  }

  lemma GlyphOneIsSevenSegment()
    ensures GlyphOne() == Render(Segments(1))
  {
  }

  lemma GlyphTwoIsSevenSegment()
    ensures GlyphTwo() == Render(Segments(2))
  {
  }

  lemma GlyphThreeIsSevenSegment()
    ensures GlyphThree() == Render(Segments(3))
  {
  }

  lemma GlyphFourIsSevenSegment()
    ensures GlyphFour() == Render(Segments(4))
  {
  }

  lemma GlyphFiveIsSevenSegment()
    ensures GlyphFive() == Render(Segments(5))
  {
  }

  lemma GlyphSixIsSevenSegment()
    ensures GlyphSix() == Render(Segments(6))
  {
  }

  lemma GlyphSevenIsSevenSegment()
    ensures GlyphSeven() == Render(Segments(7))
  {
  }

  lemma GlyphEightIsSevenSegment()
    ensures GlyphEight() == Render(Segments(8))
  {
  }

  lemma GlyphNineIsSevenSegment()
    ensures GlyphNine() == Render(Segments(9))
  {
  }

  lemma GlyphOtherIsBlank()
    ensures GlyphOther() == Render({})
  {
  }

  /** Every cell of the bitmap is unlit. */
  predicate IsBlank(b: Bitmap)
  {
    forall i, j :: 0 <= i < Rows && 0 <= j < Cols ==> b[i][j] == 0
  }

  /** The cell of a bitmap that tells whether segment g is lit. */
  function Probe(b: Bitmap, g: Segment): Cell
  {
    match g
    case Top => b[0][1]
    case UpperLeft => b[1][0]
    case UpperRight => b[1][Cols - 1]
    case Middle => b[7][1]
    case LowerLeft => b[8][0]
    case LowerRight => b[8][Cols - 1]
    case Bottom => b[14][1]
  }

  /** The segments a bitmap shows, read off one cell of each segment. */
  function ReadSegments(b: Bitmap): set<Segment>
  {
    set g: Segment | Probe(b, g) == 1
  }

  /** Reading the segments back from a rendered face gives the segments drawn. */
  lemma ReadRendered(s: set<Segment>)
    ensures ReadSegments(Render(s)) == s
  {
    var b := Render(s);
    forall g: Segment
      ensures Probe(b, g) == On(s, g)
    {
      match g
      case Top =>
      case UpperLeft =>
      case UpperRight =>
      case Middle =>
      case LowerLeft =>
      case LowerRight =>
      case Bottom =>
    }
  }

  /** The face lights nothing exactly when no segment is drawn. */
  lemma RenderBlank(s: set<Segment>)
    ensures IsBlank(Render(s)) <==> s == {}
  {
    ReadRendered(s);
    var b := Render(s);
    if s == {} {
      forall i, j | 0 <= i < Rows && 0 <= j < Cols
        ensures b[i][j] == 0
      {
        if i == 0 || i == 7 || i == 14 {
        } else if i < 7 {
          assert b[i] == Sides(0, 0);
        } else {
          assert b[i] == Sides(0, 0);
        }
      }
    }
  }

  /** No two digits share a segment set. */
  lemma SegmentsInjective(d: int, e: int)
    requires 0 <= d <= 9 && 0 <= e <= 9
    requires Segments(d) == Segments(e)
    ensures d == e
  {
  }

  /** A digit's glyph lights some cell; a non-digit's glyph lights none. */
  lemma GlyphBlankIffNotDigit(d: int)
    ensures IsBlank(Glyph(d)) <==> !(0 <= d <= 9)
  {
    GlyphIsSevenSegment(d);
    RenderBlank(Segments(d));
  }

  /** Distinct digits have distinct glyphs, so the face always tells the digits apart. */
  lemma GlyphInjective(d: int, e: int)
    requires 0 <= d <= 9 && 0 <= e <= 9
    requires Glyph(d) == Glyph(e)
    ensures d == e
  {
    GlyphIsSevenSegment(d);
    GlyphIsSevenSegment(e);
    ReadRendered(Segments(d));
    ReadRendered(Segments(e));
    SegmentsInjective(d, e);
  }
}
