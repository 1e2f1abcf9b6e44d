/** The trace routing of `PCB.connectH`, `connectV` and `connectD`: a list of endpoints becomes a polyline by
    inserting a corner point between consecutive endpoints, and every appended point gets the board side of the
    pair that produced it. Both PCB libraries route this way; koko/lib/pcb.py has no sides and no diagonal rule. */
module Routing {
  import opened Exceptions
  import opened Geometry

  /** The three routing rules: first horizontally, first vertically, or first diagonally at 45 degrees. */
  datatype Rule = Horizontal | Vertical | Diagonal

  /** The corner point (none or one) that the rule inserts between consecutive endpoints a and b. */
  function Corner(rule: Rule, a: Point, b: Point): (c: seq<Point>)
    ensures |c| <= 1
  {
    match rule
    case Horizontal => if a.x != b.x then [Point(b.x, a.y)] else []
    case Vertical => if a.y != b.y then [Point(a.x, b.y)] else []
    case Diagonal =>
      var dx, dy := b.x - a.x, b.y - a.y;
      if dy != dx then
        if Abs(dy) > Abs(dx) then [Point(b.x, a.y + Sgn(dy) * Abs(dx))]
        else [Point(a.x + Sgn(dx) * Abs(dy), b.y)]
      else []
  }

  /** Whether, after the loop, the last endpoint b of the last pair (a, b) is appended. */
  predicate AppendsEnd(rule: Rule, a: Point, b: Point) {
    match rule
    case Horizontal => a.y != b.y
    case Vertical => a.x != b.x
    case Diagonal => a.x != b.x || a.y != b.y
  }

  /** Corners become new plain points. */
  function Frees(ps: seq<Point>): (r: seq<Endpoint>)
    ensures |r| == |ps|
    ensures forall i :: 0 <= i < |ps| ==> r[i] == Free(ps[i])
  {
    if ps == [] then [] else [Free(ps[0])] + Frees(ps[1..])
  }

  /** The points appended by the first k iterations of the loop over the pairs (args[i], args[i+1]). */
  function Trace(rule: Rule, args: seq<Endpoint>, k: nat): seq<Endpoint>
    requires k < |args|
  {
    if k == 0 then []
    else Trace(rule, args, k - 1) + [args[k - 1]] + Frees(Corner(rule, args[k - 1].at, args[k].at))
  }

  /** The side entries appended by the first k iterations: one for each appended endpoint and one for each corner,
      all equal to the side of their pair. */
  function TraceSides(rule: Rule, args: seq<Endpoint>, sides: seq<int>, k: nat): seq<int>
    requires k < |args| && k <= |sides|
  {
    if k == 0 then []
    else
      TraceSides(rule, args, sides, k - 1) + [sides[k - 1]]
      + (if |Corner(rule, args[k - 1].at, args[k].at)| == 1 then [sides[k - 1]] else [])
  }

  /** The polyline over args[..k+1]: the trace of k pairs and, when the rule asks for it, the last endpoint. */
  function Polyline(rule: Rule, args: seq<Endpoint>, k: nat): seq<Endpoint>
    requires 1 <= k < |args|
  {
    Trace(rule, args, k) + (if AppendsEnd(rule, args[k - 1].at, args[k].at) then [args[k]] else [])
  }

  /** The number of pairs the loop visits: `zip(args[:-1], args[1:], sides)` stops at the shorter list. */
  function PairCount(args: seq<Endpoint>, sides: seq<int>): int {
    if |args| - 1 < |sides| then |args| - 1 else |sides|
  }

  /** The points and sides of a connection, or UnboundLocalError when the loop has no iterations (the final test reads the
      loop variables A and B). */
  function Route(rule: Rule, args: seq<Endpoint>, sides: seq<int>): Result<(seq<Endpoint>, seq<int>)> {
    var k := PairCount(args, sides);
    if k <= 0 then Err(UnboundLocalError)
    else Ok((Polyline(rule, args, k), TraceSides(rule, args, sides, k)))
  }

  /** The loop of connectH/connectV/connectD: append A and the corner for each pair, then perhaps the last B. */
  method Connect(rule: Rule, args: seq<Endpoint>, sides: seq<int>) returns (r: Result<(seq<Endpoint>, seq<int>)>)
    ensures r == Route(rule, args, sides)
  {
    var k := PairCount(args, sides);
    if k <= 0 {
      return Err(UnboundLocalError);
    }
    var points: seq<Endpoint> := [];
    var newSides: seq<int> := [];
    var i := 0;
    while i < k
      invariant 0 <= i <= k
      invariant points == Trace(rule, args, i)
      invariant newSides == TraceSides(rule, args, sides, i)
    {
      var a, b, s := args[i], args[i + 1], sides[i];
      points := points + [a];
      newSides := newSides + [s];
      var corner := Corner(rule, a.at, b.at);
      assert Frees(corner) == if |corner| == 1 then [Free(corner[0])] else [];
      if |corner| == 1 {
        points := points + [Free(corner[0])];
        newSides := newSides + [s];
      }
      i := i + 1;
    }
    if AppendsEnd(rule, args[k - 1].at, args[k].at) {
      points := points + [args[k]];
    }
    assert points == Polyline(rule, args, k);
    r := Ok((points, newSides));
  }

  // ---------------------------------------------------------------------------------------------------------------
  // Properties of the routing rules

  /** The segment p -> q is allowed by the rule: axis-aligned for H and V; axis-aligned or at 45 degrees for D. */
  predicate Step(rule: Rule, p: Point, q: Point) {
    p.x == q.x || p.y == q.y || (rule == Diagonal && Abs(q.x - p.x) == Abs(q.y - p.y))
  }

  /** Every consecutive pair of points of ps is an allowed segment. */
  predicate Chain(rule: Rule, ps: seq<Endpoint>) {
    forall i :: 0 <= i < |ps| - 1 ==> Step(rule, ps[i].at, ps[i + 1].at)
  }

  /** Horizontal-first: a corner exists exactly when x differs, and lies level with a and plumb with b. */
  lemma HorizontalCorner(a: Point, b: Point)
    ensures |Corner(Horizontal, a, b)| == 1 <==> a.x != b.x
    ensures forall c :: c in Corner(Horizontal, a, b) ==> c.y == a.y && c.x == b.x
  {
  }

  /** Vertical-first: a corner exists exactly when y differs, and lies plumb with a and level with b. */
  lemma VerticalCorner(a: Point, b: Point)
    ensures |Corner(Vertical, a, b)| == 1 <==> a.y != b.y
    ensures forall c :: c in Corner(Vertical, a, b) ==> c.x == a.x && c.y == b.y
  {
  }

  /** Diagonal-first: there is no corner exactly when dy == dx; otherwise a -> corner is at 45 degrees and
      corner -> b is axis-aligned, the corner being on b's vertical when |dy| > |dx| and on b's horizontal
      otherwise. */
  lemma DiagonalCorner(a: Point, b: Point)
    ensures |Corner(Diagonal, a, b)| == 0 <==> b.y - a.y == b.x - a.x
    ensures forall c :: c in Corner(Diagonal, a, b) ==>
      Abs(c.x - a.x) == Abs(c.y - a.y) && (c.x == b.x || c.y == b.y)
    ensures forall c :: c in Corner(Diagonal, a, b) ==>
      (Abs(b.y - a.y) > Abs(b.x - a.x) <==> c.x == b.x && c.y != b.y) || c == b
  {
    var dx, dy := b.x - a.x, b.y - a.y;
    if dy != dx {
      if Abs(dy) > Abs(dx) {
        SteepCorner(a, b);
      } else {
        ShallowCorner(a, b);
      }
    }
  }

  /** When |dy| > |dx| the diagonal corner is on b's vertical, at 45 degrees from a, and not b itself. */
  lemma SteepCorner(a: Point, b: Point)
    requires b.y - a.y != b.x - a.x && Abs(b.y - a.y) > Abs(b.x - a.x)
    ensures |Corner(Diagonal, a, b)| == 1
    ensures var c := Corner(Diagonal, a, b)[0]; Abs(c.x - a.x) == Abs(c.y - a.y) && c.x == b.x && c.y != b.y
  {
    var dx, dy := b.x - a.x, b.y - a.y;
    var k := Sgn(dy) * Abs(dx);
    SignedMagnitude(dy, dx);
    assert Corner(Diagonal, a, b) == [Point(b.x, a.y + k)];
    assert (a.y + k) - a.y == k;
  }

  /** When |dy| <= |dx| (and dy != dx) the diagonal corner is on b's horizontal, at 45 degrees from a. */
  lemma ShallowCorner(a: Point, b: Point)
    requires b.y - a.y != b.x - a.x && Abs(b.y - a.y) <= Abs(b.x - a.x)
    ensures |Corner(Diagonal, a, b)| == 1
    ensures var c := Corner(Diagonal, a, b)[0]; Abs(c.x - a.x) == Abs(c.y - a.y) && c.y == b.y
  {
    var dx, dy := b.x - a.x, b.y - a.y;
    var k := Sgn(dx) * Abs(dy);
    SignedMagnitude(dx, dy);
    assert Corner(Diagonal, a, b) == [Point(a.x + k, b.y)];
    assert (a.x + k) - a.x == k;
  }

  /** A magnitude given the sign of s keeps its size, and equals s only when the sizes agree. */
  lemma SignedMagnitude(s: real, m: real)
    ensures Abs(Sgn(s) * Abs(m)) == Abs(m)
    ensures Sgn(s) * Abs(m) == s ==> Abs(s) == Abs(m)
  {
    if s >= 0.0 {
      assert Sgn(s) * Abs(m) == Abs(m);
    } else {
      assert Sgn(s) * Abs(m) == -Abs(m);
    }
  }

  /** On an anti-diagonal pair (dy == -dx, not zero) the diagonal rule still inserts a corner, and that corner is
      b itself: the polyline then holds a zero-length segment. */
  lemma AntiDiagonalCornerIsEnd(a: Point, b: Point)
    requires b.y - a.y == -(b.x - a.x) && b.x != a.x
    ensures Corner(Diagonal, a, b) == [b]
  {
    var dx := b.x - a.x;
    if dx > 0.0 {
      assert Sgn(dx) * Abs(-dx) == dx;
    } else {
      assert Sgn(dx) * Abs(-dx) == dx;
    }
  }

  /** One pair routes as an allowed chain a, corner, b. */
  lemma PairChain(rule: Rule, a: Endpoint, b: Endpoint)
    ensures Chain(rule, [a] + Frees(Corner(rule, a.at, b.at)) + [b])
  {
    HorizontalCorner(a.at, b.at);
    VerticalCorner(a.at, b.at);
    DiagonalCorner(a.at, b.at);
    var cs := Corner(rule, a.at, b.at);
    var ps := [a] + Frees(cs) + [b];
    if |cs| == 1 {
      assert ps == [a, Free(cs[0]), b];
      assert cs[0] in cs;
    } else {
      assert ps == [a, b];
      if rule == Diagonal {
        assert b.at.y - a.at.y == b.at.x - a.at.x;
      }
    }
  }

  lemma {:induction false} TraceLength(rule: Rule, args: seq<Endpoint>, k: nat)
    requires k < |args|
    ensures k <= |Trace(rule, args, k)| <= 2 * k
    ensures k > 0 ==> Trace(rule, args, k)[0] == args[0]
  {
    if k > 0 {
      TraceLength(rule, args, k - 1);
    }
  }

  /** The trace of k pairs followed by the endpoint args[k] is an allowed chain. */
  lemma {:induction false} TraceChain(rule: Rule, args: seq<Endpoint>, k: nat)
    requires k < |args|
    ensures Chain(rule, Trace(rule, args, k) + [args[k]])
  {
    if k > 0 {
      TraceChain(rule, args, k - 1);
      var prev := Trace(rule, args, k - 1);
      var pair := [args[k - 1]] + Frees(Corner(rule, args[k - 1].at, args[k].at)) + [args[k]];
      PairChain(rule, args[k - 1], args[k]);
      var whole := Trace(rule, args, k) + [args[k]];
      assert whole == prev + pair;
      forall i | 0 <= i < |whole| - 1 ensures Step(rule, whole[i].at, whole[i + 1].at) {
        if i < |prev| - 1 {
          assert whole[i] == (prev + [args[k - 1]])[i] && whole[i + 1] == (prev + [args[k - 1]])[i + 1];
        } else if i == |prev| - 1 {
          assert whole[i] == prev[i] && whole[i + 1] == args[k - 1];
          assert (prev + [args[k - 1]])[i] == prev[i];
        } else {
          assert whole[i] == pair[i - |prev|] && whole[i + 1] == pair[i + 1 - |prev|];
        }
      }
    }
  }

  /** When the last endpoint is not appended, the trace already ends at its coordinates. */
  lemma TraceEndsAt(rule: Rule, args: seq<Endpoint>, k: nat)
    requires 1 <= k < |args|
    requires !AppendsEnd(rule, args[k - 1].at, args[k].at)
    ensures |Trace(rule, args, k)| > 0 && Trace(rule, args, k)[|Trace(rule, args, k)| - 1].at == args[k].at
  {
    var a, b := args[k - 1].at, args[k].at;
    var cs := Corner(rule, a, b);
    assert Trace(rule, args, k) == Trace(rule, args, k - 1) + [args[k - 1]] + Frees(cs);
    if rule == Diagonal {
      assert cs == [];
    }
  }

  /** The polyline of a connection: it starts at the first endpoint, ends at the coordinates of the last endpoint
      of the last pair, and every segment is allowed by the rule (so H and V routes share x or y between
      consecutive points). */
  lemma PolylineShape(rule: Rule, args: seq<Endpoint>, k: nat)
    requires 1 <= k < |args|
    ensures var ps := Polyline(rule, args, k);
      && |ps| > 0 && ps[0] == args[0] && ps[|ps| - 1].at == args[k].at
      && Chain(rule, ps)
  {
    var ps := Polyline(rule, args, k);
    var tr := Trace(rule, args, k);
    TraceLength(rule, args, k);
    TraceChain(rule, args, k);
    if AppendsEnd(rule, args[k - 1].at, args[k].at) {
      assert ps == tr + [args[k]];
    } else {
      TraceEndsAt(rule, args, k);
      assert ps == tr;
      var full := tr + [args[k]];
      forall i | 0 <= i < |ps| - 1 ensures Step(rule, ps[i].at, ps[i + 1].at) {
        assert ps[i] == full[i] && ps[i + 1] == full[i + 1];
      }
    }
  }

  /** The side list has one entry per appended endpoint and corner, i.e. one per point of the trace, and each
      entry is the side of one of the visited pairs. */
  lemma TraceSidesShape(rule: Rule, args: seq<Endpoint>, sides: seq<int>, k: nat)
    requires k < |args| && k <= |sides|
    ensures |TraceSides(rule, args, sides, k)| == |Trace(rule, args, k)|
    ensures forall j :: 0 <= j < |TraceSides(rule, args, sides, k)| ==> TraceSides(rule, args, sides, k)[j] in sides[..k]
  {
    TraceSidesLength(rule, args, sides, k);
    TraceSidesFrom(rule, args, sides, k);
  }

  lemma {:induction false} TraceSidesLength(rule: Rule, args: seq<Endpoint>, sides: seq<int>, k: nat)
    requires k < |args| && k <= |sides|
    ensures |TraceSides(rule, args, sides, k)| == |Trace(rule, args, k)|
  {
    if k > 0 {
      TraceSidesLength(rule, args, sides, k - 1);
      assert |Frees(Corner(rule, args[k - 1].at, args[k].at))| == |Corner(rule, args[k - 1].at, args[k].at)|;
    }
  }

  lemma {:induction false} TraceSidesFrom(rule: Rule, args: seq<Endpoint>, sides: seq<int>, k: nat)
    requires k < |args| && k <= |sides|
    ensures forall j :: 0 <= j < |TraceSides(rule, args, sides, k)| ==> TraceSides(rule, args, sides, k)[j] in sides[..k]
  {
    if k > 0 {
      TraceSidesFrom(rule, args, sides, k - 1);
      var prev := TraceSides(rule, args, sides, k - 1);
      var ts := TraceSides(rule, args, sides, k);
      forall j | 0 <= j < |ts| ensures ts[j] in sides[..k] {
        if j < |prev| {
          assert ts[j] == prev[j];
          var i :| 0 <= i < k - 1 && sides[..k - 1][i] == prev[j];
          assert sides[..k][i] == prev[j];
        } else {
          assert ts[j] == sides[k - 1] && sides[..k][k - 1] == sides[k - 1];
        }
      }
    }
  }

  /** What `Route` delivers: an error exactly when no pair is visited; otherwise the polyline properties, and a
      side list one shorter than the points when the last endpoint was appended, as long as them otherwise. */
  lemma RouteShape(rule: Rule, args: seq<Endpoint>, sides: seq<int>)
    ensures Route(rule, args, sides).Err? <==> |args| < 2 || |sides| == 0
    ensures Route(rule, args, sides).Ok? ==>
      var (ps, ss) := Route(rule, args, sides).value;
      var k := PairCount(args, sides);
      && ps[0] == args[0] && ps[|ps| - 1].at == args[k].at && Chain(rule, ps)
      && |ps| == |ss| + (if AppendsEnd(rule, args[k - 1].at, args[k].at) then 1 else 0)
  {
    var k := PairCount(args, sides);
    if k > 0 {
      PolylineShape(rule, args, k);
      TraceSidesShape(rule, args, sides, k);
    }
  }

  /** The loop appends only endpoints and new corner Points. */
  lemma {:induction false} TraceMembers(rule: Rule, args: seq<Endpoint>, k: nat)
    requires k < |args|
    ensures forall e :: e in Trace(rule, args, k) ==> e in args[..k] || e.Free?
  {
    if k > 0 {
      TraceMembers(rule, args, k - 1);
      var cs := Corner(rule, args[k - 1].at, args[k].at);
      assert forall e :: e in Frees(cs) ==> e.Free?;
      assert forall e :: e in args[..k - 1] ==> e in args[..k];
      assert args[k - 1] == args[..k][k - 1];
    }
  }

  /** Every point of a routed connection is one of the endpoints it was given, or a new corner Point. */
  lemma RoutePoints(rule: Rule, args: seq<Endpoint>, sides: seq<int>)
    ensures Route(rule, args, sides).Ok? ==> forall e :: e in Route(rule, args, sides).value.0 ==> e in args || e.Free?
  {
    var k := PairCount(args, sides);
    if k > 0 {
      TraceMembers(rule, args, k);
      assert forall e :: e in args[..k] ==> e in args;
    }
  }
}
