/**
 Plane polygons given by their vertex lists, and their area by the shoelace
 formula. A filled trace joins its last vertex back to its first, so the
 polygon drawn for the list vs is the closed walk vs + [vs[0]].
 */
module Shoelace {

  datatype Point = Point(x: real, y: real)

  /** Twice the signed area of the triangle (origin, a, b). */
  function Cross(a: Point, b: Point): real {
    a.x * b.y - b.x * a.y
  }

  /** Sum of Cross over consecutive vertices of an open walk. */
  function EdgeSum(walk: seq<Point>): real
    decreases |walk|
  {
    if |walk| < 2 then 0.0 else Cross(walk[0], walk[1]) + EdgeSum(walk[1..])
  }

  /** The walk around the filled region: the vertex list, closed back to its start. */
  function Closed(vs: seq<Point>): (walk: seq<Point>)
    requires vs != []
    ensures |walk| == |vs| + 1 && walk[..|vs|] == vs && walk[|vs|] == walk[0]
  {
    vs + [vs[0]]
  }

  /** Shoelace signed area: positive for counter-clockwise vertex order. */
  function SignedArea(vs: seq<Point>): real {
    if vs == [] then 0.0 else EdgeSum(Closed(vs)) / 2.0
  }

  function Abs(r: real): (a: real)
    ensures a >= 0.0 && (a == r || a == -r)
  {
    if r < 0.0 then -r else r
  }

  /** Area of the region a filled trace shades. */
  function Area(vs: seq<Point>): real {
    Abs(SignedArea(vs))
  }

  /** Half the determinant spanned by the edges a->b and a->c. */
  function TriangleSignedArea(a: Point, b: Point, c: Point): real {
    ((b.x - a.x) * (c.y - a.y) - (c.x - a.x) * (b.y - a.y)) / 2.0
  }

  /** For three vertices the shoelace sum is the familiar determinant formula. */
  lemma {:induction false} ShoelaceTriangle(a: Point, b: Point, c: Point)
    ensures SignedArea([a, b, c]) == TriangleSignedArea(a, b, c)
  {
    assert Closed([a, b, c]) == [a, b, c, a];
    assert [a, b, c, a][1..] == [b, c, a] && [b, c, a][1..] == [c, a] && [c, a][1..] == [a];
    assert EdgeSum([c, a]) == Cross(c, a) + EdgeSum([a]) == Cross(c, a);
    assert EdgeSum([b, c, a]) == Cross(b, c) + EdgeSum([c, a]);
    assert EdgeSum([a, b, c, a]) == Cross(a, b) + EdgeSum([b, c, a]);
  }

  /** Listing the vertices in the opposite order flips the sign but not the area. */
  lemma {:induction false} TriangleReversed(a: Point, b: Point, c: Point)
    ensures SignedArea([c, b, a]) == -SignedArea([a, b, c])
    ensures Area([c, b, a]) == Area([a, b, c])
  {
    ShoelaceTriangle(a, b, c);
    ShoelaceTriangle(c, b, a);
  }
}
