/**
 * Integer plane geometry as the floor planner uses it: points and axis-aligned
 * rectangles with the semantics of java.awt.Point and java.awt.Rectangle
 * (Java int overflow aside), Java's truncating integer division, and the
 * ASCII part of String.equalsIgnoreCase.
 */
module Geometry {

  datatype Option<T> = None | Some(value: T)

  datatype Point = Point(x: int, y: int)

  /** Origin (x, y) and extent width x height. */
  datatype Rect = Rect(x: int, y: int, width: int, height: int)

  /** Euclidean division facts for a non-negative dividend. */
  lemma DivisionFacts(n: int, b: int)
    requires n >= 0 && b > 0
    ensures 0 <= (n / b) * b <= n < (n / b) * b + b
  {
    var d, m := n / b, n % b;
    assert n == d * b + m && 0 <= m < b;
    assert d * b >= 0;
  }

  /** Java's `a / b` for a positive divisor: the quotient truncated toward zero. */
  function JavaDiv(a: int, b: int): (q: int)
    requires b > 0
    ensures a >= 0 ==> 0 <= q * b <= a < q * b + b
    ensures a < 0 ==> q * b - b < a <= q * b <= 0
  {
    if a >= 0 then
      DivisionFacts(a, b); a / b
    else
      DivisionFacts(-a, b);
      assert -((-a) / b) * b == -(((-a) / b) * b);
      -((-a) / b)
  }

  /** Java's `a % b` for a positive divisor: the remainder takes the sign of `a`. */
  function JavaRem(a: int, b: int): (r: int)
    requires b > 0
    ensures a >= 0 ==> 0 <= r < b
    ensures a < 0 ==> -b < r <= 0
    ensures (a - r) % b == 0
  {
    var q := JavaDiv(a, b);
    MultipleMod(q, b);
    a - q * b
  }

  lemma {:induction false} AtLeastDivisor(k: int, b: int)
    requires k >= 1 && b > 0
    ensures k * b >= b
    decreases k
  {
    if k > 1 {
      AtLeastDivisor(k - 1, b);
      assert k * b == (k - 1) * b + b;
    }
  }

  /** A multiple of `b` leaves no remainder. */
  lemma MultipleMod(q: int, b: int)
    requires b > 0
    ensures (q * b) % b == 0
  {
    var n := q * b;
    var d, m := n / b, n % b;
    assert (q - d) * b == m;
    if q - d >= 1 {
      AtLeastDivisor(q - d, b);
    } else if d - q >= 1 {
      AtLeastDivisor(d - q, b);
    }
  }

  /** Truncation and Dafny's floor division disagree on negative operands. */
  lemma JavaDivExamples()
    ensures JavaDiv(23, 20) == 1 && JavaDiv(-23, 20) == -1 && -23 / 20 == -2
    ensures JavaDiv(-20, 20) == -1 && JavaDiv(-7, 2) == -3 && -7 / 2 == -4
    ensures JavaRem(-30, 360) == -30 && JavaRem(390, 360) == 30
  {
  }

  /** Rectangle.contains(Point): half-open in both axes. */
  function Contains(r: Rect, p: Point): (inside: bool)
    ensures inside ==> r.width > 0 && r.height > 0
  {
    r.x <= p.x < r.x + r.width && r.y <= p.y < r.y + r.height
  }

  /** Rectangle.intersects(Rectangle): empty rectangles intersect nothing, and
      rectangles that only share an edge do not intersect. */
  function Intersects(a: Rect, b: Rect): (meet: bool)
    ensures meet <==> var corner := Point(Max(a.x, b.x), Max(a.y, b.y));
                      Contains(a, corner) && Contains(b, corner)
  {
    && a.width > 0 && a.height > 0 && b.width > 0 && b.height > 0
    && b.x + b.width > a.x && b.y + b.height > a.y
    && a.x + a.width > b.x && a.y + a.height > b.y
  }

  /** Two rectangles intersect exactly when some point lies in both. */
  lemma IntersectsIffCommonPoint(a: Rect, b: Rect)
    ensures Intersects(a, b) <==> exists p :: Contains(a, p) && Contains(b, p)
  {
    if Intersects(a, b) {
      var p := Point(if a.x < b.x then b.x else a.x, if a.y < b.y then b.y else a.y);
      assert Contains(a, p) && Contains(b, p);
    }
  }

  lemma IntersectsSymmetric(a: Rect, b: Rect)
    ensures Intersects(a, b) == Intersects(b, a)
  {
  }

  /** Rectangles that meet along a vertical or a horizontal edge do not intersect. */
  lemma TouchingDoesNotIntersect(a: Rect, b: Rect)
    requires a.x + a.width == b.x || b.x + b.width == a.x || a.y + a.height == b.y || b.y + b.height == a.y
    ensures !Intersects(a, b)
  {
  }

  function Max(a: int, b: int): int { if a < b then b else a }
  function Min(a: int, b: int): int { if a < b then a else b }

  /** The open-interval span test of CanvasPanel.roomsOverlap. */
  predicate SpansOverlap(start1: int, end1: int, start2: int, end2: int)
  {
    Max(start1, start2) < Min(end1, end2)
  }

  predicate InSpan(t: int, start: int, end: int)
  {
    start <= t < end
  }

  /** The span test holds exactly when the half-open spans share a coordinate. */
  lemma SpansOverlapIffCommonCoordinate(start1: int, end1: int, start2: int, end2: int)
    ensures SpansOverlap(start1, end1, start2, end2) <==>
            exists t :: InSpan(t, start1, end1) && InSpan(t, start2, end2)
  {
    if SpansOverlap(start1, end1, start2, end2) {
      var t := Max(start1, start2);
      assert InSpan(t, start1, end1) && InSpan(t, start2, end2);
    }
  }

  /** ASCII upper-casing; every other character maps to itself. */
  function AsciiUpper(c: char): (u: char)
    ensures 'a' <= c <= 'z' ==> 'A' <= u <= 'Z' && u as int == c as int - 32
    ensures !('a' <= c <= 'z') ==> u == c
  {
    if 'a' <= c <= 'z' then (c as int - 32) as char else c
  }

  /** Two characters are equal ignoring case exactly when they are equal or
      are the lower- and upper-case forms of one ASCII letter. */
  lemma SameLetterIgnoringCase(c: char, d: char)
    ensures AsciiUpper(c) == AsciiUpper(d) <==>
            c == d || ('a' <= c <= 'z' && d as int == c as int - 32) || ('a' <= d <= 'z' && c as int == d as int - 32)
  {
  }

  /** String.equalsIgnoreCase restricted to ASCII case mapping. */
  function EqualsIgnoreCase(a: string, b: string): (same: bool)
    ensures a == b ==> same
    ensures same ==> |a| == |b|
  {
    |a| == |b| && forall i :: 0 <= i < |a| ==> AsciiUpper(a[i]) == AsciiUpper(b[i])
  }

  /** Equality ignoring case is an equivalence relation. */
  lemma EqualsIgnoreCaseIsEquivalence(a: string, b: string, c: string)
    ensures EqualsIgnoreCase(a, a)
    ensures EqualsIgnoreCase(a, b) ==> EqualsIgnoreCase(b, a)
    ensures EqualsIgnoreCase(a, b) && EqualsIgnoreCase(b, c) ==> EqualsIgnoreCase(a, c)
  {
  }

  lemma EqualsIgnoreCaseExamples()
    ensures EqualsIgnoreCase("BEDROOM", "Bedroom")
    ensures EqualsIgnoreCase("bathroom", "Bathroom")
    ensures !EqualsIgnoreCase("Bedroom ", "Bedroom")
    ensures !EqualsIgnoreCase("Kitchen", "Bedroom")
  {
    assert AsciiUpper("Kitchen"[0]) != AsciiUpper("Bedroom"[0]);
  }
}
