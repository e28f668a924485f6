/**
 * The Point value of the operator-overloading example: two int coordinates,
 * component-wise addition and the ordering that compares x first and y
 * second.
 */
module Geometry {
  import opened CppInt

  datatype Point = Point(x: Int32, y: Int32) {
    /** The x coordinate. */
    function GetX(): (px: Int32)
      ensures Point(px, y) == this
    {
      x
    }

    /** The y coordinate. */
    function GetY(): (py: Int32)
      ensures Point(x, py) == this
    {
      y
    }

    /** operator+: a new point whose coordinates are the sums of the operands' coordinates. */
    function Plus(other: Point): (sum: Point)
      requires SumFits(x, other.x) && SumFits(y, other.y)
      ensures sum.GetX() as int == GetX() as int + other.GetX() as int
      ensures sum.GetY() as int == GetY() as int + other.GetY() as int
    {
      Point(x + other.x, y + other.y)
    }

    /** operator<: decided by x, and by y when the x coordinates are equal. */
    predicate Less(other: Point): (less: bool)
      ensures GetX() != other.GetX() ==> (less <==> GetX() < other.GetX())
      ensures GetX() == other.GetX() ==> (less <==> GetY() < other.GetY())
    {
      if x < other.x then true
      else if x == other.x && y < other.y then true
      else false
    }
  }

  /** The default constructor: the origin. */
  function Origin(): (p: Point)
    ensures p.GetX() == 0 && p.GetY() == 0
  {
    Point(0, 0)
  }

  /** The two-argument constructor keeps both coordinates as given, and the getters read them back. */
  lemma ConstructorKeepsCoordinates(x: Int32, y: Int32)
    ensures Point(x, y).GetX() == x && Point(x, y).GetY() == y
    ensures forall p: Point :: Point(p.GetX(), p.GetY()) == p
  {
  }

  /** Lexicographic order on integer sequences, as a reference for Less. */
  predicate LexLess(a: seq<int>, b: seq<int>)
    decreases |a|
  {
    && |a| > 0 && |b| > 0
    && (a[0] < b[0] || (a[0] == b[0] && LexLess(a[1..], b[1..])))
  }

  /** The coordinates of p as a two-element sequence, x first. */
  function Coordinates(p: Point): (xy: seq<int>) {
    [p.x as int, p.y as int]
  }

  /** Less is the lexicographic order on the coordinate pair (x, y). */
  lemma LessIsLexicographic(p: Point, q: Point)
    ensures p.Less(q) <==> LexLess(Coordinates(p), Coordinates(q))
  {
    var a, b := Coordinates(p), Coordinates(q);
    assert a[1..] == [p.y as int] && b[1..] == [q.y as int];
    assert LexLess(a[1..], b[1..]) <==> p.y < q.y by {
      assert a[1..][1..] == [] && b[1..][1..] == [];
      assert !LexLess(a[1..][1..], b[1..][1..]);
    }
  }

  /** Less is irreflexive. */
  lemma LessIrreflexive(p: Point)
    ensures !p.Less(p)
  {
  }

  /** Less is transitive. */
  lemma LessTransitive(p: Point, q: Point, r: Point)
    requires p.Less(q) && q.Less(r)
    ensures p.Less(r)
  {
  }

  /** Of two distinct points exactly one is less than the other. */
  lemma LessTrichotomy(p: Point, q: Point)
    requires p != q
    ensures p.Less(q) != q.Less(p)
  {
  }

  /** Addition is commutative and has the origin as its identity. */
  lemma PlusCommutesWithOriginIdentity(p: Point, q: Point)
    requires SumFits(p.x, q.x) && SumFits(p.y, q.y)
    ensures p.Plus(q) == q.Plus(p)
    ensures p.Plus(Origin()) == p
  {
  }

  /** Adding a point with non-negative coordinates never moves a point down the order. */
  lemma PlusMonotone(p: Point, q: Point)
    requires SumFits(p.x, q.x) && SumFits(p.y, q.y)
    requires q.x >= 0 && q.y >= 0
    ensures !p.Plus(q).Less(p)
  {
  }
}
