/**
 * Integer rectangles (Siv3D/Include/Siv3D/Rectangle.hpp, `Rect = Rectangle<Point>`).
 *
 * A rectangle is a top-left position and a size. The const members
 * (`movedBy`, `stretched`, the corners, `area`, `perimeter`, `==`) are
 * functions on the value `Rect`; the anchor-based constructors are functions
 * that build one. The members that update the rectangle in place and return
 * `*this` (`setPos`, `setCenter`, `setSize`, `set`, `moveBy`) are methods of
 * the class `Rectangle`, which holds the four coordinates as fields.
 */
module Rectangles {
  import opened Wrappers
  import Format

  datatype Point = Point(x: int, y: int) {
    /** Point::movedBy */
    function MovedBy(dx: int, dy: int): Point {
      Point(x + dx, y + dy)
    }
  }

  /** C++ integer division by 2, which truncates toward zero. */
  function TruncHalf(v: int): (r: int)
    ensures v >= 0 ==> r == v / 2
    ensures v < 0 ==> r == -((-v) / 2)
    ensures -1 <= v - 2 * r <= 1 && (v - 2 * r) * v >= 0
  {
    if v >= 0 then v / 2 else -((-v) / 2)
  }

  datatype Rect = Rect(x: int, y: int, w: int, h: int) {

    function Pos(): Point {
      Point(x, y)
    }

    function Size(): Point {
      Point(w, h)
    }

    /** tl(): the top-left corner, which is the position. */
    function Tl(): Point {
      Point(x, y)
    }

    /** tr(): the top-right corner, one width to the right of the position. */
    function Tr(): Point {
      Point(x + w, y)
    }

    /** bl(): the bottom-left corner, one height below the position. */
    function Bl(): Point {
      Point(x, y + h)
    }

    /** br(): the bottom-right corner, where the right edge of tr() meets the bottom edge of bl(). */
    function Br(): (p: Point)
      ensures p == Point(Tr().x, Bl().y)
    {
      Point(x + w, y + h)
    }

    /** area(): the product of the extents between opposite corners. */
    function Area(): (a: int)
      ensures a == (Br().x - Tl().x) * (Br().y - Tl().y)
    {
      w * h
    }

    /** perimeter(): the sum of the lengths of the four sides top, right, bottom, left. */
    function Perimeter(): (p: int)
      ensures p == (Tr().x - Tl().x) + (Br().y - Tr().y) + (Br().x - Bl().x) + (Bl().y - Tl().y)
    {
      (w + h) * 2
    }

    /** operator ==: equal positions and equal sizes, which is equality of the four fields. */
    function Equals(other: Rect): (b: bool)
      ensures b <==> this == other
    {
      Pos() == other.Pos() && Size() == other.Size()
    }

    /** operator !=: the negation of ==. */
    function NotEquals(other: Rect): (b: bool)
      ensures b <==> this != other
      ensures b == !Equals(other)
    {
      !Equals(other)
    }

    /** movedBy(x, y): the same size at a position shifted by (dx, dy). */
    function MovedBy(dx: int, dy: int): (r: Rect)
      ensures r.Size() == Size()
      ensures r.Pos() == Pos().MovedBy(dx, dy)
      ensures r.Br() == Br().MovedBy(dx, dy)
    {
      Rect(x + dx, y + dy, w, h)
    }

    /** movedBy(const Size&) */
    function MovedByVector(v: Point): (r: Rect)
      ensures r == MovedBy(v.x, v.y)
    {
      Rect(x + v.x, y + v.y, w, h)
    }

    /** stretched(const Size& xy): every edge pushed outward, left and right by xy.x, top and bottom by xy.y. */
    function Stretched(xy: Point): (r: Rect)
      ensures r.Tl() == Tl().MovedBy(-xy.x, -xy.y)
      ensures r.Br() == Br().MovedBy(xy.x, xy.y)
    {
      Rect(x - xy.x, y - xy.y, w + xy.x * 2, h + xy.y * 2)
    }

    /** stretched(value_type xy) */
    function StretchedBy(xy: int): Rect {
      Stretched(Point(xy, xy))
    }

    /** stretched(value_type x, value_type y) */
    function StretchedXY(dx: int, dy: int): Rect {
      Stretched(Point(dx, dy))
    }

    /** stretched(top, right, bottom, left): each edge pushed outward by its own amount. */
    function StretchedEdges(top: int, right: int, bottom: int, left: int): (r: Rect)
      ensures r.Tl() == Tl().MovedBy(-left, -top)
      ensures r.Br() == Br().MovedBy(right, bottom)
    {
      Rect(x - left, y - top, w + left + right, h + top + bottom)
    }

    /**
     * The text `operator<<` writes: "(x,y,w,h)". It is parenthesised, and
     * splitting what lies between the parentheses at its commas gives the
     * decimal texts of x, y, w and h, in that order.
     */
    function Text(): (s: string)
      ensures |s| >= 9 && s[0] == '(' && s[|s| - 1] == ')'
      ensures Fields(s[1..|s| - 1]) == [Format.DecimalText(x), Format.DecimalText(y), Format.DecimalText(w), Format.DecimalText(h)]
    {
      var dx, dy, dw, dh := Format.DecimalText(x), Format.DecimalText(y), Format.DecimalText(w), Format.DecimalText(h);
      NoCommaInDecimalText(x);
      NoCommaInDecimalText(y);
      NoCommaInDecimalText(w);
      NoCommaInDecimalText(h);
      FieldsOfFour(dx, dy, dw, dh);
      Format.DecimalTextShape(x);
      Format.DecimalTextShape(y);
      Format.DecimalTextShape(w);
      Format.DecimalTextShape(h);
      var body := dx + "," + (dy + "," + (dw + "," + dh));
      var s := "(" + body + ")";
      assert s[1..|s| - 1] == body;
      s
    }
  }

  /** Rectangle(value_type size): a square at the origin. */
  function Square(size: int): Rect {
    Rect(0, 0, size, size)
  }

  /** Rectangle(w, h) and Rectangle(size_type): a rectangle at the origin. */
  function AtOrigin(w: int, h: int): Rect {
    Rect(0, 0, w, h)
  }

  /** Rectangle(pos, w, h) and its (x, y, ...) and square forms: pos is the top-left corner. */
  function FromTopLeft(p: Point, w: int, h: int): Rect {
    Rect(p.x, p.y, w, h)
  }

  /** Rectangle(Arg::topRight = p, w, h): p is the top-right corner. */
  function FromTopRight(p: Point, w: int, h: int): (r: Rect)
    ensures r.Tr() == p && r.Size() == Point(w, h)
  {
    Rect(p.x - w, p.y, w, h)
  }

  /** Rectangle(Arg::bottomLeft = p, w, h): p is the bottom-left corner. */
  function FromBottomLeft(p: Point, w: int, h: int): (r: Rect)
    ensures r.Bl() == p && r.Size() == Point(w, h)
  {
    Rect(p.x, p.y - h, w, h)
  }

  /** Rectangle(Arg::bottomRight = p, w, h): p is the bottom-right corner. */
  function FromBottomRight(p: Point, w: int, h: int): (r: Rect)
    ensures r.Br() == p && r.Size() == Point(w, h)
  {
    Rect(p.x - w, p.y - h, w, h)
  }

  /**
   * Rectangle(Arg::center = c, w, h): the position is c minus half the size,
   * halved with C++ truncation. For a non-negative extent the centre lies on
   * the rectangle, at most half a unit left of (above) the exact middle.
   */
  function FromCenter(c: Point, w: int, h: int): (r: Rect)
    ensures r.Size() == Point(w, h)
    ensures r.x == c.x - TruncHalf(w) && r.y == c.y - TruncHalf(h)
    ensures w >= 0 ==> r.x <= c.x <= r.x + w && -1 <= 2 * (c.x - r.x) - w <= 0
    ensures h >= 0 ==> r.y <= c.y <= r.y + h && -1 <= 2 * (c.y - r.y) - h <= 0
  {
    Rect(c.x - TruncHalf(w), c.y - TruncHalf(h), w, h)
  }

  /**
   * Each anchor constructor inverts its corner: anchoring a rectangle's size
   * at its own tl(), tr(), bl() or br() gives back the rectangle.
   */
  lemma AnchorRoundTrip(r: Rect)
    ensures FromTopLeft(r.Tl(), r.w, r.h) == r
    ensures FromTopRight(r.Tr(), r.w, r.h) == r
    ensures FromBottomLeft(r.Bl(), r.w, r.h) == r
    ensures FromBottomRight(r.Br(), r.w, r.h) == r
  {
  }

  /**
   * The corners of a rectangle lie one width and one height apart: tr() is
   * tl() moved right by w, bl() is tl() moved down by h, and the anchor
   * constructors put the given point at their corner.
   */
  lemma CornersSpanSize(r: Rect, p: Point, w: int, h: int)
    ensures r.Tr() == r.Tl().MovedBy(r.w, 0) && r.Bl() == r.Tl().MovedBy(0, r.h)
    ensures FromTopLeft(p, w, h).Tl() == p && FromTopLeft(p, w, h).Size() == Point(w, h)
  {
  }

  /**
   * The origin constructors: a square is the rectangle whose width and
   * height are both `size`, and a rectangle at the origin has its
   * bottom-right corner at (w, h) and area w * h.
   */
  lemma OriginConstructors(size: int, w: int, h: int)
    ensures Square(size) == AtOrigin(size, size)
    ensures AtOrigin(w, h) == FromTopLeft(Point(0, 0), w, h)
    ensures AtOrigin(w, h).Br() == Point(w, h) && AtOrigin(w, h).Area() == w * h
  {
  }

  /**
   * The uniform and two-amount overloads of stretched are the four-edge one:
   * stretched(d) pushes every edge out by d and grows the perimeter by 8 * d;
   * stretched(dx, dy) pushes the left and right edges by dx and the top and
   * bottom edges by dy.
   */
  lemma StretchedOverloads(r: Rect, d: int, dx: int, dy: int)
    ensures r.StretchedBy(d) == r.StretchedEdges(d, d, d, d)
    ensures r.StretchedBy(d).Perimeter() == r.Perimeter() + 8 * d
    ensures r.StretchedXY(dx, dy) == r.StretchedEdges(dy, dx, dy, dx)
    ensures r.StretchedXY(dx, dy).Area() == (r.w + 2 * dx) * (r.h + 2 * dy)
  {
  }

  /** Every corner constructor, moved by a vector, is the same constructor at the moved corner. */
  lemma CornerConstructorsCommuteWithMove(p: Point, w: int, h: int, dx: int, dy: int)
    ensures FromTopLeft(p, w, h).MovedBy(dx, dy) == FromTopLeft(p.MovedBy(dx, dy), w, h)
    ensures FromTopRight(p, w, h).MovedBy(dx, dy) == FromTopRight(p.MovedBy(dx, dy), w, h)
    ensures FromBottomLeft(p, w, h).MovedBy(dx, dy) == FromBottomLeft(p.MovedBy(dx, dy), w, h)
    ensures FromBottomRight(p, w, h).MovedBy(dx, dy) == FromBottomRight(p.MovedBy(dx, dy), w, h)
  {
  }

  /** Moving back undoes a move, and two moves compose. */
  lemma MovedByRoundTrip(r: Rect, dx: int, dy: int, ex: int, ey: int)
    ensures r.MovedBy(dx, dy).MovedBy(-dx, -dy) == r
    ensures r.MovedBy(dx, dy).MovedBy(ex, ey) == r.MovedBy(dx + ex, dy + ey)
  {
  }

  /** stretched(xy) is stretched(top, right, bottom, left) with xy.y above and below and xy.x left and right. */
  lemma StretchedIsStretchedEdges(r: Rect, xy: Point)
    ensures r.Stretched(xy) == r.StretchedEdges(xy.y, xy.x, xy.y, xy.x)
  {
  }

  /** Stretching grows the perimeter by twice the sum of the four amounts, and undoes with negated amounts. */
  lemma StretchedEdgesPerimeter(r: Rect, top: int, right: int, bottom: int, left: int)
    ensures r.StretchedEdges(top, right, bottom, left).Perimeter() == r.Perimeter() + 2 * (top + right + bottom + left)
    ensures r.StretchedEdges(top, right, bottom, left).StretchedEdges(-top, -right, -bottom, -left) == r
  {
  }

  /** Moving changes neither the area nor the perimeter. */
  lemma MovedByKeepsMeasures(r: Rect, dx: int, dy: int)
    ensures r.MovedBy(dx, dy).Area() == r.Area()
    ensures r.MovedBy(dx, dy).Perimeter() == r.Perimeter()
  {
  }

  // ---------------------------------------------------------------------------
  // Reading back the text form

  /** The index of the first `c` in `s`, or |s| when there is none. */
  function IndexOf(s: string, c: char): (i: nat)
    ensures i <= |s|
    ensures forall k :: 0 <= k < i ==> s[k] != c
    ensures i < |s| ==> s[i] == c
  {
    if s == [] then 0 else if s[0] == c then 0 else 1 + IndexOf(s[1..], c)
  }

  /** The comma-separated fields of `s`. */
  function Fields(s: string): (fs: seq<string>)
    ensures |fs| >= 1
    decreases |s|
  {
    var i := IndexOf(s, ',');
    if i == |s| then [s] else [s[..i]] + Fields(s[i + 1..])
  }

  /** Reads "(x,y,w,h)" back into a rectangle. */
  function ParseRect(s: string): Option<Rect> {
    if |s| >= 2 && s[0] == '(' && s[|s| - 1] == ')' then
      var fs := Fields(s[1..|s| - 1]);
      if |fs| == 4 then
        match (Format.ParseInt(fs[0]), Format.ParseInt(fs[1]), Format.ParseInt(fs[2]), Format.ParseInt(fs[3]))
        case (Some(x), Some(y), Some(w), Some(h)) => Some(Rect(x, y, w, h))
        case _ => None
      else None
    else None
  }

  predicate NoComma(s: string) {
    forall k :: 0 <= k < |s| ==> s[k] != ','
  }

  /** The decimal text of a value contains no comma. */
  lemma NoCommaInDecimalText(v: int)
    ensures NoComma(Format.DecimalText(v))
  {
    Format.DecimalTextShape(v);
  }

  /** Splitting a comma-free field followed by a comma yields that field first. */
  lemma FieldsCons(a: string, rest: string)
    requires NoComma(a)
    ensures Fields(a + "," + rest) == [a] + Fields(rest)
  {
    var s := a + "," + rest;
    var i := IndexOf(s, ',');
    assert s[|a|] == ',';
    assert i == |a|;
    assert s[..i] == a;
    assert s[i + 1..] == rest;
  }

  /** A comma-free string is a single field. */
  lemma FieldsSingle(a: string)
    requires NoComma(a)
    ensures Fields(a) == [a]
  {
    assert IndexOf(a, ',') == |a|;
  }

  /** Three comma-free fields joined by commas split back into those three fields. */
  lemma FieldsOfThree(b: string, c: string, d: string)
    requires NoComma(b) && NoComma(c) && NoComma(d)
    ensures Fields(b + "," + (c + "," + d)) == [b, c, d]
  {
    FieldsSingle(d);
    FieldsCons(c, d);
    FieldsCons(b, c + "," + d);
  }

  /** Four comma-free fields joined by commas split back into those four fields. */
  lemma FieldsOfFour(a: string, b: string, c: string, d: string)
    requires NoComma(a) && NoComma(b) && NoComma(c) && NoComma(d)
    ensures Fields(a + "," + (b + "," + (c + "," + d))) == [a, b, c, d]
  {
    FieldsOfThree(b, c, d);
    FieldsCons(a, b + "," + (c + "," + d));
  }

  /** The text `operator<<` writes reads back as the same rectangle. */
  lemma ParseRectText(r: Rect)
    ensures ParseRect(r.Text()) == Some(r)
  {
    Format.ParseDecimalText(r.x);
    Format.ParseDecimalText(r.y);
    Format.ParseDecimalText(r.w);
    Format.ParseDecimalText(r.h);
  }

  // ---------------------------------------------------------------------------
  // The members that update a rectangle in place

  class Rectangle {
    var x: int
    var y: int
    var w: int
    var h: int

    /** The rectangle value the fields hold. */
    function Value(): Rect
      reads this
    {
      Rect(x, y, w, h)
    }

    /** Rectangle(x, y, w, h) */
    constructor (x0: int, y0: int, w0: int, h0: int)
      ensures Value() == Rect(x0, y0, w0, h0)
    {
      x, y, w, h := x0, y0, w0, h0;
    }

    /** setPos(x, y), setPos(pos) and setPos(Arg::topLeft): moves the top-left corner, keeps the size. */
    method SetPos(px: int, py: int)
      modifies this
      ensures Value().Tl() == Point(px, py) && Value().Size() == old(Value().Size())
    {
      x, y := px, py;
    }

    /** setPos(Arg::topRight): places the top-right corner at p, keeps the size. */
    method SetPosTopRight(p: Point)
      modifies this
      ensures Value().Tr() == p && Value().Size() == old(Value().Size())
      ensures Value() == FromTopRight(p, old(w), old(h))
    {
      x, y := p.x - w, p.y;
    }

    /** setPos(Arg::bottomLeft): places the bottom-left corner at p, keeps the size. */
    method SetPosBottomLeft(p: Point)
      modifies this
      ensures Value().Bl() == p && Value().Size() == old(Value().Size())
      ensures Value() == FromBottomLeft(p, old(w), old(h))
    {
      x, y := p.x, p.y - h;
    }

    /** setPos(Arg::bottomRight): places the bottom-right corner at p, keeps the size. */
    method SetPosBottomRight(p: Point)
      modifies this
      ensures Value().Br() == p && Value().Size() == old(Value().Size())
      ensures Value() == FromBottomRight(p, old(w), old(h))
    {
      x, y := p.x - w, p.y - h;
    }

    /** setCenter(x, y), setCenter(pos) and setPos(Arg::center): the position the centre constructor would give, same size. */
    method SetCenter(cx: int, cy: int)
      modifies this
      ensures Value() == FromCenter(Point(cx, cy), old(w), old(h))
      ensures Value().Size() == old(Value().Size())
    {
      x, y := cx - TruncHalf(w), cy - TruncHalf(h);
    }

    /** setSize(w, h) and setSize(size): changes the size, keeps the position. */
    method SetSize(nw: int, nh: int)
      modifies this
      ensures Value().Size() == Point(nw, nh) && Value().Pos() == old(Value().Pos())
    {
      w, h := nw, nh;
    }

    /**
     * set(x, y, w, h): sets exactly these four fields. The other `set`
     * overloads call it with the fields of the corresponding constructor:
     * Set(FromCenter(c, w, h)), Set(FromTopRight(p, w, h)) and so on.
     */
    method Set(nx: int, ny: int, nw: int, nh: int)
      modifies this
      ensures Value() == Rect(nx, ny, nw, nh)
    {
      x, y := nx, ny;
      w, h := nw, nh;
    }

    /** moveBy(x, y) and moveBy(v): in-place movedBy. */
    method MoveBy(dx: int, dy: int)
      modifies this
      ensures Value() == old(Value()).MovedBy(dx, dy)
    {
      x, y := x + dx, y + dy;
    }
  }
}
