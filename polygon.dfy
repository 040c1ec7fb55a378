/** The polygon primitive of the building models (Primitives/Polygon.cs): a vertex array
    with cyclic navigation, the shoelace area, vertex, convexity and orientation
    classification, and in-place reversal of the vertex order. The source's float
    coordinates become integers, so every area and cross product here is exact. */
module Polygons {
  import opened Wrappers
  import opened Sequences

  datatype Point = Point(x: int, y: int)

  datatype VertexType = ErrorPoint | ConvexPoint | ConcavePoint
  datatype PolygonType = Convex | Concave
  datatype PolygonDirection = Unknown | Clockwise | CountClockwise

  function Abs(r: real): real { if r < 0.0 then -r else r }

  function Cross(p: Point, q: Point): int { p.x * q.y - p.y * q.x }

  /** The sum of Cross(s[i], s[i + 1]) along the open chain s[0], ..., s[|s| - 1]. */
  function ChainSum(s: seq<Point>): int
    decreases |s|
  {
    if |s| < 2 then 0 else ChainSum(s[..|s| - 1]) + Cross(s[|s| - 2], s[|s| - 1])
  }

  /** Twice the signed shoelace area: the chain closed by the edge from the last vertex back to the first. */
  function ShoelaceSum(s: seq<Point>): int {
    if |s| == 0 then 0 else ChainSum(s) + Cross(s[|s| - 1], s[0])
  }

  function SignedArea(s: seq<Point>): real { ShoelaceSum(s) as real / 2.0 }

  /** The index of the last element of s equal to v, or -1 when there is none. */
  function LastIndexOf(s: seq<Point>, v: Point): (r: int)
    ensures -1 <= r < |s|
    ensures r >= 0 ==> s[r] == v
    ensures forall j :: r < j < |s| ==> s[j] != v
    ensures r == -1 <==> v !in s
  {
    if |s| == 0 then -1
    else if s[|s| - 1] == v then |s| - 1
    else LastIndexOf(s[..|s| - 1], v)
  }

  /** The turn at vertex i: the cross product of the edge i -> i+1 with the edge i+1 -> i+2, indices taken cyclically. */
  function Turn(s: seq<Point>, i: nat): int
    requires i < |s|
  {
    var j := (i + 1) % |s|;
    var k := (i + 2) % |s|;
    (s[j].x - s[i].x) * (s[k].y - s[j].y) - (s[j].y - s[i].y) * (s[k].x - s[j].x)
  }

  /** The orientation counter after the first k turns: +1 for a positive turn, -1 for any other. */
  function DirectionCount(s: seq<Point>, k: nat): int
    requires k <= |s|
  {
    if k == 0 then 0 else DirectionCount(s, k - 1) + (if Turn(s, k - 1) > 0 then 1 else -1)
  }

  /** The number of positive turns among the first k. */
  function PositiveTurns(s: seq<Point>, k: nat): nat
    requires k <= |s|
  {
    if k == 0 then 0 else PositiveTurns(s, k - 1) + (if Turn(s, k - 1) > 0 then 1 else 0)
  }

  function Classify(count: int): PolygonDirection {
    if count < 0 then CountClockwise else if count > 0 then Clockwise else Unknown
  }

  /** Some turn is positive and some turn is negative. */
  ghost predicate HasOppositeTurns(s: seq<Point>) {
    exists i, j :: 0 <= i < |s| && 0 <= j < |s| && Turn(s, i) > 0 && Turn(s, j) < 0
  }

  /** The parameter along the polygon edge p3-p4 at which the line through p1 and p2 meets it,
      or -1 when the two are parallel within smallValue. */
  function EdgeParameter(p1: Point, p2: Point, p3: Point, p4: Point, smallValue: real): real
    requires 0.0 <= smallValue
  {
    var de := ((p4.y - p3.y) * (p2.x - p1.x) - (p4.x - p3.x) * (p2.y - p1.y)) as real;
    if Abs(de - 0.0) > smallValue
    then ((p2.x - p1.x) * (p1.y - p3.y) - (p2.y - p1.y) * (p1.x - p3.x)) as real / de
    else -1.0
  }

  /** The parameter along the segment p1-p2 at which it meets the line through the edge p3-p4,
      or -1 when the two are parallel within smallValue. */
  function SegmentParameter(p1: Point, p2: Point, p3: Point, p4: Point, smallValue: real): real
    requires 0.0 <= smallValue
  {
    var de := ((p4.y - p3.y) * (p2.x - p1.x) - (p4.x - p3.x) * (p2.y - p1.y)) as real;
    if Abs(de - 0.0) > smallValue
    then ((p4.x - p3.x) * (p1.y - p3.y) - (p4.y - p3.y) * (p1.x - p3.x)) as real / de
    else -1.0
  }

  /** The segment p1-p2 and the edge p3-p4 cross strictly inside both of them. */
  predicate CrossesEdgeInterior(p1: Point, p2: Point, p3: Point, p4: Point, smallValue: real)
    requires 0.0 <= smallValue
  {
    var ua := SegmentParameter(p1, p2, p3, p4, smallValue);
    var ub := EdgeParameter(p1, p2, p3, p4, smallValue);
    0.0 < ua && ua < 1.0 && 0.0 < ub && ub < 1.0
  }

  /** The segment p1-p2 meets the interior of the edge from vertex i to its cyclic successor. */
  predicate CrossesEdge(s: seq<Point>, p1: Point, p2: Point, i: nat, smallValue: real)
    requires i < |s| && 0.0 <= smallValue
  {
    CrossesEdgeInterior(p1, p2, s[i], s[(i + 1) % |s|], smallValue)
  }

  /** The segment p1-p2 meets the interior of no edge of the polygon s. */
  predicate IsDiagonal(s: seq<Point>, p1: Point, p2: Point, smallValue: real)
    requires 0.0 <= smallValue
  {
    |s| > 0 && forall i :: 0 <= i < |s| ==> !CrossesEdge(s, p1, p2, i, smallValue)
  }

  /** The value Diagonal computes as written: the flag is reset on every edge, so only the
      closing edge decides, and the line is taken from vertex1 to vertex1 itself. */
  function DiagonalAsWrittenValue(s: seq<Point>, p1: Point, p2: Point, smallValue: real): (r: bool)
    requires 0.0 <= smallValue
    ensures r == (|s| > 0)
  {
    DegenerateLineCrossesNothing(p1, if |s| > 0 then s[|s| - 1] else p1, if |s| > 0 then s[0] else p1, smallValue);
    |s| > 0 && !CrossesEdgeInterior(p1, p1, s[|s| - 1], s[0], smallValue)
  }

  lemma ModOfSmall(a: int, n: int)
    requires 0 <= a < n
    ensures a % n == a
  {
  }

  lemma ModShift(a: int, n: int)
    requires 0 <= a < n
    ensures (a + n) % n == a
  {
  }

  lemma CrossAntisymmetric(p: Point, q: Point)
    ensures Cross(q, p) == -Cross(p, q)
  {
  }

  lemma DegenerateLineCrossesNothing(p: Point, p3: Point, p4: Point, smallValue: real)
    requires 0.0 <= smallValue
    ensures !CrossesEdgeInterior(p, p, p3, p4, smallValue)
  {
    assert (p4.y - p3.y) * (p.x - p.x) == 0;
    assert (p4.x - p3.x) * (p.y - p.y) == 0;
  }

  lemma {:induction false} ChainSumCons(p: Point, t: seq<Point>)
    requires |t| >= 1
    ensures ChainSum([p] + t) == Cross(p, t[0]) + ChainSum(t)
    decreases |t|
  {
    if |t| == 1 {
      assert [p] + t == [p, t[0]];
      assert [p, t[0]][..1] == [p];
    } else {
      var u := t[..|t| - 1];
      ChainSumCons(p, u);
      assert ([p] + t)[..|t|] == [p] + u;
    }
  }

  lemma {:induction false} ChainSumReversed(s: seq<Point>)
    ensures ChainSum(Reversed(s)) == -ChainSum(s)
    decreases |s|
  {
    if |s| >= 2 {
      var r := Reversed(s);
      var t := s[1..];
      ChainSumReversed(t);
      assert r[..|s| - 1] == Reversed(t);
      assert s == [s[0]] + t;
      ChainSumCons(s[0], t);
      CrossAntisymmetric(s[1], s[0]);
    }
  }

  /** Reversing the vertex order negates the signed area: it swaps clockwise and counter-clockwise. */
  lemma ReversingNegatesSignedArea(s: seq<Point>)
    ensures ShoelaceSum(Reversed(s)) == -ShoelaceSum(s)
    ensures SignedArea(Reversed(s)) == -SignedArea(s)
    ensures Abs(SignedArea(Reversed(s))) == Abs(SignedArea(s))
  {
    if |s| > 0 {
      ChainSumReversed(s);
      CrossAntisymmetric(s[0], s[|s| - 1]);
    }
  }

  lemma {:induction false} DirectionCountByPositives(s: seq<Point>, k: nat)
    requires k <= |s|
    ensures DirectionCount(s, k) == 2 * PositiveTurns(s, k) - k
  {
    if k > 0 {
      DirectionCountByPositives(s, k - 1);
    }
  }

  /** The triangle (a, b, c) has twice the signed area of the turn a -> b -> c. */
  lemma TriangleShoelace(a: Point, b: Point, c: Point)
    ensures ShoelaceSum([a, b, c]) == (b.x - a.x) * (c.y - b.y) - (b.y - a.y) * (c.x - b.x)
  {
    var s := [a, b, c];
    assert s[..2] == [a, b];
    assert [a, b][..1] == [a];
    assert ChainSum([a, b]) == Cross(a, b);
    assert ChainSum(s) == Cross(a, b) + Cross(b, c);
  }

  /** The cyclic neighbours of vertex m, as the turn at m's predecessor sees them. */
  lemma PredecessorTurnIndices(n: nat, m: nat)
    requires m < n
    ensures var i := (m + n - 1) % n; i < n && (i + 1) % n == m && (i + 2) % n == (m + 1) % n
  {
    if m == 0 {
      ModOfSmall(n - 1, n);
      ModShift(0, n);
      if n == 1 {
        assert 2 % 1 == 0;
      } else {
        ModShift(1, n);
        ModOfSmall(1, n);
      }
    } else {
      ModShift(m - 1, n);
      ModOfSmall(m, n);
      if m + 1 < n {
        ModOfSmall(m + 1, n);
        ModShift(m + 1, n);
      } else {
        ModShift(0, n);
        assert m + 1 == n;
      }
    }
  }

  class Polygon {
    var vertices: array?<Point>

    /** Copies the points; with fewer than three the ArgumentException is caught and logged
        and the vertex array is never created. */
    constructor (points: seq<Point>)
      ensures |points| < 3 ==> vertices == null
      ensures |points| >= 3 ==> vertices != null && fresh(vertices) && vertices[..] == points
    {
      if |points| < 3 {
        vertices := null;
      } else {
        var a := new Point[|points|];
        var i := 0;
        while i < |points|
          invariant 0 <= i <= |points|
          invariant a[..i] == points[..i]
        {
          a[i] := points[i];
          i := i + 1;
        }
        vertices := a;
      }
    }

    method VertexIndex(vertex: Point) returns (index: int)
      requires vertices != null
      ensures index == LastIndexOf(vertices[..], vertex)
    {
      index := -1;
      var i := 0;
      while i < vertices.Length
        invariant 0 <= i <= vertices.Length
        invariant index == LastIndexOf(vertices[..i], vertex)
      {
        assert vertices[..i + 1][..i] == vertices[..i];
        if vertices[i] == vertex {
          index := i;
        }
        i := i + 1;
      }
      assert vertices[..vertices.Length] == vertices[..];
    }

    function PreviousPoint(vertex: Point): (r: Option<Point>)
      requires vertices != null
      reads this, vertices
      ensures r == None <==> vertex !in vertices[..]
      ensures r.Some? ==> r.value == vertices[(LastIndexOf(vertices[..], vertex) + vertices.Length - 1) % vertices.Length]
    {
      var index := LastIndexOf(vertices[..], vertex);
      if index == -1 then None
      else if index == 0 then
        ModOfSmall(vertices.Length - 1, vertices.Length);
        Some(vertices[vertices.Length - 1])
      else
        ModShift(index - 1, vertices.Length);
        Some(vertices[index - 1])
    }

    function NextPoint(vertex: Point): (r: Option<Point>)
      requires vertices != null
      reads this, vertices
      ensures r == None <==> vertex !in vertices[..]
      ensures r.Some? ==> r.value == vertices[(LastIndexOf(vertices[..], vertex) + 1) % vertices.Length]
    {
      var index := LastIndexOf(vertices[..], vertex);
      if index == -1 then None
      else if index == vertices.Length - 1 then
        ModShift(0, vertices.Length);
        Some(vertices[0])
      else
        ModOfSmall(index + 1, vertices.Length);
        Some(vertices[index + 1])
    }

    function PolygonVertex(point: Point): (b: bool)
      requires vertices != null
      reads this, vertices
      ensures b <==> point in vertices[..]
    {
      var index := LastIndexOf(vertices[..], point);
      index >= 0 && index <= vertices.Length - 1
    }

    /** The absolute shoelace area; the source accumulates in a double. */
    method PolygonArea() returns (area: real)
      requires vertices != null
      ensures area == Abs(SignedArea(vertices[..]))
    {
      var signed := SignedPolygonArea(vertices);
      area := if signed < 0.0 then -signed else signed;
    }

    /** The signed shoelace area of the points (the source's static PolygonArea overload). */
    static method SignedPolygonArea(points: array<Point>) returns (area: real)
      ensures area == SignedArea(points[..])
    {
      ghost var s := points[..];
      var n := points.Length;
      var sum: real := 0.0;
      var i := 0;
      while i < n
        invariant 0 <= i <= n
        invariant i < n ==> sum == ChainSum(s[..i + 1]) as real
        invariant i == n ==> sum == ShoelaceSum(s) as real
      {
        var j := (i + 1) % n;
        sum := sum + (points[i].x * points[j].y) as real;
        sum := sum - (points[i].y * points[j].x) as real;
        if i + 1 < n {
          ModOfSmall(i + 1, n);
          assert s[..i + 2][..i + 1] == s[..i + 1];
        } else {
          ModShift(0, n);
          assert s[..i + 1] == s;
        }
        i := i + 1;
      }
      area := sum / 2.0;
    }

    function PolygonVertexType(vertex: Point): (t: VertexType)
      requires vertices != null
      reads this, vertices
      ensures vertex !in vertices[..] ==> t == ErrorPoint
      ensures t == ConvexPoint ==> SignedArea([PreviousPoint(vertex).value, vertex, NextPoint(vertex).value]) < 0.0
      ensures t == ConcavePoint ==> SignedArea([PreviousPoint(vertex).value, vertex, NextPoint(vertex).value]) > 0.0
    {
      if PolygonVertex(vertex) then
        var area := SignedArea([PreviousPoint(vertex).value, vertex, NextPoint(vertex).value]);
        if area < 0.0 then ConvexPoint
        else if area > 0.0 then ConcavePoint
        else ErrorPoint
      else ErrorPoint
    }

    /** Diagonal as the source writes it (see DiagonalAsWrittenValue). */
    method DiagonalAsWritten(vertex1: Point, vertex2: Point, smallValue: real) returns (diagonal: bool)
      requires vertices != null && 0.0 <= smallValue
      ensures diagonal == DiagonalAsWrittenValue(vertices[..], vertex1, vertex2, smallValue)
      ensures diagonal == (vertices.Length > 0)
    {
      diagonal := false;
      var n := vertices.Length;
      var i := 0;
      while i < n
        invariant 0 <= i <= n
        invariant diagonal == (i > 0)
      {
        diagonal := true;
        var j := (i + 1) % n;
        // The second end of the line is taken from vertex1 again.
        var ub := EdgeParameter(vertex1, vertex1, vertices[i], vertices[j], smallValue);
        DegenerateLineCrossesNothing(vertex1, vertices[i], vertices[j], smallValue);
        if ub > 0.0 && ub < 1.0 {
          diagonal := false;
        }
        i := i + 1;
      }
    }

    /** Diagonal as evidently intended: the segment runs from vertex1 to vertex2, it crosses an
        edge when both line parameters lie strictly between 0 and 1, and one crossed edge decides. */
    method Diagonal(vertex1: Point, vertex2: Point, smallValue: real) returns (diagonal: bool)
      requires vertices != null && 0.0 <= smallValue
      ensures diagonal == IsDiagonal(vertices[..], vertex1, vertex2, smallValue)
    {
      ghost var s := vertices[..];
      var n := vertices.Length;
      diagonal := n > 0;
      var i := 0;
      while i < n
        invariant 0 <= i <= n
        invariant diagonal == (n > 0 && forall m :: 0 <= m < i ==> !CrossesEdge(s, vertex1, vertex2, m, smallValue))
      {
        var j := (i + 1) % n;
        var ua := SegmentParameter(vertex1, vertex2, vertices[i], vertices[j], smallValue);
        var ub := EdgeParameter(vertex1, vertex2, vertices[i], vertices[j], smallValue);
        assert (0.0 < ua && ua < 1.0 && 0.0 < ub && ub < 1.0) == CrossesEdge(s, vertex1, vertex2, i, smallValue);
        if ua > 0.0 && ua < 1.0 && ub > 0.0 && ub < 1.0 {
          diagonal := false;
        }
        i := i + 1;
      }
    }

    /** PrincipalVertex with Diagonal as written: it is true of every vertex. */
    function PrincipalVertexAsWritten(vertex: Point, smallValue: real): (b: bool)
      requires vertices != null && 0.0 <= smallValue
      reads this, vertices
      ensures b == PolygonVertex(vertex)
    {
      PolygonVertex(vertex)
        && DiagonalAsWrittenValue(vertices[..], PreviousPoint(vertex).value, NextPoint(vertex).value, smallValue)
    }

    /** A vertex whose neighbours are joined by a diagonal. */
    function PrincipalVertex(vertex: Point, smallValue: real): (b: bool)
      requires vertices != null && 0.0 <= smallValue
      reads this, vertices
      ensures b <==> vertex in vertices[..]
                     && IsDiagonal(vertices[..], PreviousPoint(vertex).value, NextPoint(vertex).value, smallValue)
    {
      PolygonVertex(vertex)
        && IsDiagonal(vertices[..], PreviousPoint(vertex).value, NextPoint(vertex).value, smallValue)
    }

    /** Concave exactly when two turns have opposite signs; zero turns are ignored. */
    method GetPolygonType() returns (t: PolygonType)
      requires vertices != null
      ensures t == Concave <==> HasOppositeTurns(vertices[..])
    {
      ghost var s := vertices[..];
      var n := vertices.Length;
      var signChanged := false;
      var count := 0;
      var i := 0;
      while i < n
        invariant 0 <= i <= n
        invariant count == 0 || count == 1 || count == -1
        invariant count == 0 ==> forall m :: 0 <= m < i ==> Turn(s, m) == 0
        invariant count == 1 ==> exists m :: 0 <= m < i && Turn(s, m) > 0
        invariant count == -1 ==> exists m :: 0 <= m < i && Turn(s, m) < 0
        invariant !signChanged && count == 1 ==> forall m :: 0 <= m < i ==> Turn(s, m) >= 0
        invariant !signChanged && count == -1 ==> forall m :: 0 <= m < i ==> Turn(s, m) <= 0
        invariant signChanged <==> exists a, b :: 0 <= a < i && 0 <= b < i && Turn(s, a) > 0 && Turn(s, b) < 0
      {
        var j := (i + 1) % n;
        var k := (i + 2) % n;
        var crossProduct := (vertices[j].x - vertices[i].x) * (vertices[k].y - vertices[j].y);
        crossProduct := crossProduct - (vertices[j].y - vertices[i].y) * (vertices[k].x - vertices[j].x);
        assert crossProduct == Turn(s, i);
        if crossProduct > 0 && count == 0 {
          count := 1;
        } else if crossProduct < 0 && count == 0 {
          count := -1;
        }
        if (count == 1 && crossProduct < 0) || (count == -1 && crossProduct > 0) {
          signChanged := true;
        }
        i := i + 1;
      }
      t := if signChanged then Concave else Convex;
    }

    /** Reverses the vertex order in place through a temporary copy. */
    method ReverseVerticesDirection()
      requires vertices != null
      modifies vertices
      ensures vertices[..] == Reversed(old(vertices[..]))
    {
      ReversePointsDirection(vertices);
    }

    /** The orientation of the vertex cycle, without the source's guard against fewer than three points. */
    method VerticesDirection() returns (d: PolygonDirection)
      requires vertices != null
      ensures d == Classify(DirectionCount(vertices[..], vertices.Length))
      ensures d == Clockwise <==> 2 * PositiveTurns(vertices[..], vertices.Length) > vertices.Length
      ensures d == CountClockwise <==> 2 * PositiveTurns(vertices[..], vertices.Length) < vertices.Length
    {
      d := CountDirection(vertices);
    }

    static method CountDirection(points: array<Point>) returns (d: PolygonDirection)
      ensures d == Classify(DirectionCount(points[..], points.Length))
      ensures d == Clockwise <==> 2 * PositiveTurns(points[..], points.Length) > points.Length
      ensures d == CountClockwise <==> 2 * PositiveTurns(points[..], points.Length) < points.Length
    {
      ghost var s := points[..];
      var n := points.Length;
      var count := 0;
      var i := 0;
      while i < n
        invariant 0 <= i <= n
        invariant count == DirectionCount(s, i)
      {
        var j := (i + 1) % n;
        var k := (i + 2) % n;
        var crossProduct := (points[j].x - points[i].x) * (points[k].y - points[j].y);
        crossProduct := crossProduct - (points[j].y - points[i].y) * (points[k].x - points[j].x);
        assert crossProduct == Turn(s, i);
        if crossProduct > 0 {
          count := count + 1;
        } else {
          count := count - 1;
        }
        i := i + 1;
      }
      DirectionCountByPositives(s, n);
      d := if count < 0 then CountClockwise else if count > 0 then Clockwise else Unknown;
    }

    /** The orientation of the given points; Unknown for fewer than three. */
    static method PointsDirection(points: array<Point>) returns (d: PolygonDirection)
      ensures points.Length < 3 ==> d == Unknown
      ensures points.Length >= 3 ==> d == Classify(DirectionCount(points[..], points.Length))
      ensures points.Length >= 3 ==> (d == Clockwise <==> 2 * PositiveTurns(points[..], points.Length) > points.Length)
      ensures points.Length >= 3 ==> (d == CountClockwise <==> 2 * PositiveTurns(points[..], points.Length) < points.Length)
    {
      if points.Length < 3 {
        return Unknown;
      }
      d := CountDirection(points);
    }

    /** Reverses the points in place: copy to a temporary array, then write back from the end. */
    static method ReversePointsDirection(points: array<Point>)
      modifies points
      ensures points[..] == Reversed(old(points[..]))
    {
      var n := points.Length;
      var temp := new Point[n];
      var i := 0;
      while i < n
        invariant 0 <= i <= n
        invariant temp[..i] == points[..i]
        invariant points[..] == old(points[..])
      {
        temp[i] := points[i];
        i := i + 1;
      }
      i := 0;
      while i < n
        invariant 0 <= i <= n
        invariant temp[..] == old(points[..])
        invariant forall m :: 0 <= m < i ==> points[m] == temp[n - 1 - m]
      {
        points[i] := temp[n - 1 - i];
        i := i + 1;
      }
    }
  }

  /** PolygonVertexType by the turn at a vertex's predecessor: the triangle (previous, vertex, next)
      is exactly that turn, so a negative turn is convex and a positive one concave. */
  lemma VertexTypeByTurn(p: Polygon, vertex: Point)
    requires p.vertices != null && vertex in p.vertices[..]
    ensures var s := p.vertices[..];
            var i := (LastIndexOf(s, vertex) + |s| - 1) % |s|;
            i < |s|
            && (p.PolygonVertexType(vertex) == ConvexPoint <==> Turn(s, i) < 0)
            && (p.PolygonVertexType(vertex) == ConcavePoint <==> Turn(s, i) > 0)
            && (p.PolygonVertexType(vertex) == ErrorPoint <==> Turn(s, i) == 0)
  {
    var s := p.vertices[..];
    var m := LastIndexOf(s, vertex);
    PredecessorTurnIndices(|s|, m);
    var i := (m + |s| - 1) % |s|;
    var prev := p.PreviousPoint(vertex).value;
    var next := p.NextPoint(vertex).value;
    assert prev == s[i];
    assert vertex == s[(i + 1) % |s|];
    assert next == s[(i + 2) % |s|];
    TriangleShoelace(prev, vertex, next);
  }

  /** The pentagon (0,0), (4,0), (4,4), (2,1), (0,4) has a notch at (2,1): the line between
      (4,0) and (0,4) crosses the edge (4,4)-(2,1) at (2.4, 1.6), eight tenths along the edge and
      four tenths along the segment, yet Diagonal as written calls it a diagonal. */
  lemma DiagonalDiscrepancy()
    ensures var s := [Point(0, 0), Point(4, 0), Point(4, 4), Point(2, 1), Point(0, 4)];
            DiagonalAsWrittenValue(s, Point(4, 0), Point(0, 4), 0.0) && !IsDiagonal(s, Point(4, 0), Point(0, 4), 0.0)
  {
    var s := [Point(0, 0), Point(4, 0), Point(4, 4), Point(2, 1), Point(0, 4)];
    assert SegmentParameter(Point(4, 0), Point(0, 4), s[2], s[3], 0.0) == 8.0 / 20.0;
    assert EdgeParameter(Point(4, 0), Point(0, 4), s[2], s[3], 0.0) == 16.0 / 20.0;
    assert (2 + 1) % |s| == 3;
    assert CrossesEdge(s, Point(4, 0), Point(0, 4), 2, 0.0);
  }

  /** On the same pentagon, vertex (0,0) is not principal: the segment between its neighbours
      (0,4) and (4,0) crosses the edge (4,4)-(2,1) at (2.4, 1.6), yet PrincipalVertex as written
      accepts it. Vertex (4,4) is principal: the segment from (4,0) to (2,1) touches the
      boundary only at its two ends. */
  lemma PrincipalVertexDiscrepancy(p: Polygon)
    requires p.vertices != null
    requires p.vertices[..] == [Point(0, 0), Point(4, 0), Point(4, 4), Point(2, 1), Point(0, 4)]
    ensures p.PrincipalVertexAsWritten(Point(0, 0), 0.0)
    ensures !p.PrincipalVertex(Point(0, 0), 0.0)
    ensures p.PrincipalVertex(Point(4, 4), 0.0)
  {
    var s := p.vertices[..];
    assert s[0] == Point(0, 0) && s[2] == Point(4, 4);
    assert LastIndexOf(s, Point(0, 0)) == 0;
    assert p.PreviousPoint(Point(0, 0)).value == Point(0, 4);
    assert p.NextPoint(Point(0, 0)).value == Point(4, 0);
    assert SegmentParameter(Point(0, 4), Point(4, 0), s[2], s[3], 0.0) == 12.0 / 20.0;
    assert EdgeParameter(Point(0, 4), Point(4, 0), s[2], s[3], 0.0) == 16.0 / 20.0;
    assert (2 + 1) % |s| == 3;
    assert CrossesEdge(s, Point(0, 4), Point(4, 0), 2, 0.0);

    assert LastIndexOf(s, Point(4, 4)) == 2;
    assert p.PreviousPoint(Point(4, 4)).value == Point(4, 0);
    assert p.NextPoint(Point(4, 4)).value == Point(2, 1);
    var a, b := Point(4, 0), Point(2, 1);
    assert SegmentParameter(a, b, s[0], s[1], 0.0) == 0.0;
    assert SegmentParameter(a, b, s[1], s[2], 0.0) == 0.0;
    assert SegmentParameter(a, b, s[2], s[3], 0.0) == 1.0;
    assert SegmentParameter(a, b, s[3], s[4], 0.0) == 1.0;
    assert SegmentParameter(a, b, s[4], s[0], 0.0) == 2.0;
    forall i | 0 <= i < |s| ensures !CrossesEdge(s, a, b, i, 0.0) {
      assert (i + 1) % |s| == if i == 4 then 0 else i + 1;
    }
  }

}
