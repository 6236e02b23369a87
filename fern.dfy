/**
 * The Barnsley fern: four affine maps chosen by a cumulative-probability table,
 * iterated from the origin. The random draws are an input sequence.
 */
module Fern {
  import opened Wrappers
  import opened Plane
  import SeqFacts

  // ---------------------------------------------------------------------------
  // Affine transformations

  /**
   * `AffineTransform(a, b, c, d, e, f)`: the matrix [[a, b], [c, d]] and the
   * constant vector (e, f); every coefficient defaults to 0.
   */
  datatype AffineTransform = AffineTransform(
    a: real := 0.0, b: real := 0.0, c: real := 0.0, d: real := 0.0, e: real := 0.0, f: real := 0.0)
  {
    /** The 2-by-2 matrix, with rows (a, b) and (c, d). */
    function Matrix(): (m: seq<seq<real>>)
      ensures |m| == 2 && |m[0]| == 2 && |m[1]| == 2
    {
      [[a, b], [c, d]]
    }

    /** The constant vector (e, f). */
    function Constant(): (v: seq<real>)
      ensures |v| == 2
    {
      [e, f]
    }
  }

  lemma DotOfPairs(p: real, q: real, x: real, y: real)
    ensures Dot([p, q], [x, y]) == p * x + q * y
  {
    assert [p, q][1..] == [q] && [x, y][1..] == [y];
    assert [q][1..] == [] && [y][1..] == [];
    assert Dot([q], [y]) == q * y + Dot([], []);
    assert Dot([p, q], [x, y]) == p * x + Dot([q], [y]);
  }

  /** The matrix-vector product of `np.matmul`. */
  function MatVec(m: seq<seq<real>>, v: seq<real>): seq<real>
    requires forall i :: 0 <= i < |m| ==> |m[i]| == |v|
  {
    seq(|m|, i requires 0 <= i < |m| => Dot(m[i], v))
  }

  function VecAdd(u: seq<real>, v: seq<real>): seq<real>
    requires |u| == |v|
  {
    seq(|u|, i requires 0 <= i < |u| => u[i] + v[i])
  }

  /**
   * `__call__(x, y)`: the matrix times (x, y) plus the constant, which is
   * (a*x + b*y + e, c*x + d*y + f).
   */
  function Apply(t: AffineTransform, x: real, y: real): (q: Point)
    ensures q == Point(t.a * x + t.b * y + t.e, t.c * x + t.d * y + t.f)
  {
    var m := MatVec(t.Matrix(), [x, y]);
    var v := VecAdd(m, t.Constant());
    DotOfPairs(t.a, t.b, x, y);
    DotOfPairs(t.c, t.d, x, y);
    assert m[0] == t.a * x + t.b * y && m[1] == t.c * x + t.d * y;
    assert v[0] == m[0] + t.e && v[1] == m[1] + t.f;
    Point(v[0], v[1])
  }

  /** A transform built with no arguments sends every point to the origin. */
  lemma DefaultSendsToOrigin(x: real, y: real)
    ensures Apply(AffineTransform(), x, y) == Origin
  {
  }

  // ---------------------------------------------------------------------------
  // The fern's maps and their cumulative probabilities

  const F1 := AffineTransform(d := 0.16)
  const F2 := AffineTransform(0.85, 0.04, -0.04, 0.85, 0.0, 1.60)
  const F3 := AffineTransform(0.20, -0.26, 0.23, 0.22, 0.0, 1.60)
  const F4 := AffineTransform(-0.15, 0.28, 0.26, 0.24, 0.0, 0.44)

  const Functions: seq<AffineTransform> := [F1, F2, F3, F4]
  const FpCumulative: seq<real> := [0.01, 0.86, 0.93, 1.0]

  /**
   * The four maps in the order of `functions`. f1 draws the stem: it keeps
   * 0.16 of the height and nothing of the width.
   */
  lemma MapFormulas(x: real, y: real)
    ensures Apply(Functions[0], x, y) == Point(0.0, 0.16 * y)
    ensures Apply(Functions[1], x, y) == Point(0.85 * x + 0.04 * y, -0.04 * x + 0.85 * y + 1.60)
    ensures Apply(Functions[2], x, y) == Point(0.20 * x - 0.26 * y, 0.23 * x + 0.22 * y + 1.60)
    ensures Apply(Functions[3], x, y) == Point(-0.15 * x + 0.28 * y, 0.26 * x + 0.24 * y + 0.44)
  {
  }

  predicate StrictlyIncreasing(t: seq<real>) {
    forall i, j :: 0 <= i < j < |t| ==> t[i] < t[j]
  }

  /** One threshold per map; the thresholds increase strictly and end at 1. */
  lemma TableWellFormed()
    ensures |Functions| == |FpCumulative|
    ensures StrictlyIncreasing(FpCumulative)
    ensures FpCumulative[|FpCumulative| - 1] == 1.0
  {
  }

  // ---------------------------------------------------------------------------
  // Choosing a map

  /**
   * The loop of `next_point` from position `j` on: the first index whose
   * threshold is above the draw, or None when the loop falls through.
   */
  function FirstAbove(table: seq<real>, draw: real, j: nat := 0): (res: Option<nat>)
    requires j <= |table|
    ensures res.Some? ==>
              j <= res.value < |table| && draw < table[res.value] &&
              forall k :: j <= k < res.value ==> table[k] <= draw
    ensures res.None? ==> forall k :: j <= k < |table| ==> table[k] <= draw
    decreases |table| - j
  {
    if j == |table| then None
    else if draw < table[j] then Some(j)
    else FirstAbove(table, draw, j + 1)
  }

  /** Map j is chosen for the draws in [table[j-1], table[j]) (with table[-1] read as minus infinity). */
  predicate InInterval(table: seq<real>, j: int, draw: real) {
    0 <= j < |table| && (j == 0 || table[j - 1] <= draw) && draw < table[j]
  }

  /** With increasing thresholds, index j is selected exactly when the draw lies in its interval. */
  lemma SelectionInterval(table: seq<real>, draw: real, j: int)
    requires StrictlyIncreasing(table)
    ensures FirstAbove(table, draw) == Some(j) <==> InInterval(table, j, draw)
  {
    var res := FirstAbove(table, draw);
    if InInterval(table, j, draw) {
      assert res.Some?;
    }
  }

  /** Every draw in [0, 1) selects exactly one of the four maps. */
  lemma ExactlyOneMap(draw: real)
    requires 0.0 <= draw < 1.0
    ensures exists j :: InInterval(FpCumulative, j, draw)
    ensures forall j, j' :: InInterval(FpCumulative, j, draw) && InInterval(FpCumulative, j', draw) ==> j == j'
  {
    TableWellFormed();
    var res := FirstAbove(FpCumulative, draw);
    SelectionInterval(FpCumulative, draw, res.value);
    forall j, j' | InInterval(FpCumulative, j, draw) && InInterval(FpCumulative, j', draw)
      ensures j == j'
    {
      SelectionInterval(FpCumulative, draw, j);
      SelectionInterval(FpCumulative, draw, j');
    }
  }

  /**
   * `next_point(x)` for the draw `draw`: the selected map applied to the point,
   * or None (the loop falls through) exactly when the draw is at least 1.
   */
  function NextPoint(p: Point, draw: real): (q: Option<Point>)
    ensures q.Some? <==> draw < 1.0
  {
    match FirstAbove(FpCumulative, draw)
    case Some(j) => Some(Apply(Functions[j], p.x, p.y))
    case None =>
      assert FpCumulative[3] <= draw;
      None
  }

  /** The map applied is the one whose interval holds the draw. */
  lemma NextPointUsesMap(p: Point, draw: real, j: int)
    requires InInterval(FpCumulative, j, draw)
    ensures NextPoint(p, draw) == Some(Apply(Functions[j], p.x, p.y))
  {
    TableWellFormed();
    SelectionInterval(FpCumulative, draw, j);
  }

  // ---------------------------------------------------------------------------
  // The whole fern

  predicate BelowOne(draws: seq<real>) {
    forall i :: 0 <= i < |draws| ==> draws[i] < 1.0
  }

  /** The rows `fern_maker` writes: the origin, then one point per draw. */
  function FernPoints(draws: seq<real>): (pts: seq<Point>)
    requires BelowOne(draws)
    ensures |pts| == |draws| + 1 && pts[0] == Origin
    decreases |draws|
  {
    if |draws| == 0 then [Origin]
    else
      var prev := FernPoints(draws[..|draws| - 1]);
      prev + [NextPoint(prev[|prev| - 1], draws[|draws| - 1]).value]
  }

  /** Point i+1 is the map selected by draw i applied to point i. */
  lemma {:induction false} FernPointsStep(draws: seq<real>, i: nat)
    requires BelowOne(draws) && i < |draws|
    ensures NextPoint(FernPoints(draws)[i], draws[i]) == Some(FernPoints(draws)[i + 1])
    decreases |draws|
  {
    var prefix := draws[..|draws| - 1];
    if i < |prefix| {
      assert prefix[i] == draws[i];
      FernPointsStep(prefix, i);
    }
  }

  /** Extending the draws by one appends the next point of the last row. */
  lemma FernPointsSnoc(draws: seq<real>, i: nat)
    requires BelowOne(draws) && i < |draws|
    ensures FernPoints(draws[..i + 1])
            == FernPoints(draws[..i]) + [NextPoint(FernPoints(draws[..i])[i], draws[i]).value]
  {
    assert draws[..i + 1][..i] == draws[..i];
  }

  const FernLo := Point(-5.0, -15.0)
  const FernHi := Point(5.0, 15.0)

  /** Each of the four maps sends the box [-5, 5] x [-15, 15] into itself. */
  lemma MapsKeepBox(j: int, p: Point)
    requires 0 <= j < |Functions| && InBox(p, FernLo, FernHi)
    ensures InBox(Apply(Functions[j], p.x, p.y), FernLo, FernHi)
  {
  }

  /** So every point of the fern lies in that box. */
  lemma {:induction false} FernPointsInBox(draws: seq<real>)
    requires BelowOne(draws)
    ensures forall i :: 0 <= i < |draws| + 1 ==> InBox(FernPoints(draws)[i], FernLo, FernHi)
    decreases |draws|
  {
    if |draws| > 0 {
      var prefix := draws[..|draws| - 1];
      var prev := FernPoints(prefix);
      FernPointsInBox(prefix);
      var j := FirstAbove(FpCumulative, draws[|draws| - 1]).value;
      MapsKeepBox(j, prev[|prev| - 1]);
    }
  }

  /**
   * `fern_maker(n)`: n rows, starting from a zero row, each later row the next
   * point of the previous one.
   */
  method FernMaker(draws: seq<real>, n: nat := 100000) returns (fern: seq<Point>)
    requires |draws| == (if n == 0 then 0 else n - 1)
    requires forall i :: 0 <= i < |draws| ==> 0.0 <= draws[i] < 1.0
    ensures |fern| == n
    ensures n > 0 ==> fern == FernPoints(draws)
    ensures forall i :: 0 <= i < n ==> InBox(fern[i], FernLo, FernHi)
  {
    var rows := new Point[n](_ => Origin);
    if n == 0 {
      return rows[..];
    }
    var i := 0;
    while i < n - 1
      invariant 0 <= i <= |draws|
      invariant rows[..i + 1] == FernPoints(draws[..i])
    {
      FernPointsSnoc(draws, i);
      rows[i + 1] := NextPoint(rows[i], draws[i]).value;
      SeqFacts.TakeSnoc(rows[..], i + 1);
      i := i + 1;
    }
    assert draws[..i] == draws;
    fern := rows[..];
    FernPointsInBox(draws);
  }
}
