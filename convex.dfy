/**
 * Convex combinations of a finite list of corner points: the weights that
 * `_starting_point` draws and the hull that the chaos-game recurrence never leaves.
 */
module Convex {
  import opened Plane

  function Sum(w: seq<real>): real {
    if |w| == 0 then 0.0 else w[0] + Sum(w[1..])
  }

  predicate NonNegative(w: seq<real>) {
    forall i :: 0 <= i < |w| ==> 0.0 <= w[i]
  }

  /** Weights of a convex combination: non-negative and summing to one. */
  predicate IsWeights(w: seq<real>) {
    NonNegative(w) && Sum(w) == 1.0
  }

  /** The first coordinates of the points. */
  function Xs(cs: seq<Point>): (xs: seq<real>)
    ensures |xs| == |cs| && forall i :: 0 <= i < |cs| ==> xs[i] == cs[i].x
  {
    seq(|cs|, i requires 0 <= i < |cs| => cs[i].x)
  }

  /** The second coordinates of the points. */
  function Ys(cs: seq<Point>): (ys: seq<real>)
    ensures |ys| == |cs| && forall i :: 0 <= i < |cs| ==> ys[i] == cs[i].y
  {
    seq(|cs|, i requires 0 <= i < |cs| => cs[i].y)
  }

  /**
   * The combination w[0]*cs[0] + ... + w[k-1]*cs[k-1], summed one axis at a
   * time as numpy's `np.sum(..., axis=0)` does.
   */
  function WeightedSum(w: seq<real>, cs: seq<Point>): Point
    requires |w| == |cs|
  {
    Point(Dot(w, Xs(cs)), Dot(w, Ys(cs)))
  }

  /** `p` is a convex combination of the points `cs`. */
  ghost predicate InHull(p: Point, cs: seq<Point>) {
    exists w :: |w| == |cs| && IsWeights(w) && WeightedSum(w, cs) == p
  }

  /** Weights that sum to one place their combination in the hull. */
  lemma WeightsGiveHullPoint(w: seq<real>, cs: seq<Point>)
    requires |w| == |cs| && IsWeights(w)
    ensures InHull(WeightedSum(w, cs), cs)
  {
  }

  /** Every entry of `v` divided by `s`. */
  function Divide(v: seq<real>, s: real): (d: seq<real>)
    requires s != 0.0
    ensures |d| == |v|
    ensures forall i :: 0 <= i < |v| ==> d[i] == v[i] / s
  {
    if |v| == 0 then [] else [v[0] / s] + Divide(v[1..], s)
  }

  // Small facts of real arithmetic, each proved in a context of its own.

  /** A product whose first factor is a named sum u + v, distributed. */
  lemma MulOfSum(k: real, s: real, u: real, v: real)
    requires s == u + v
    ensures s * k == u * k + v * k
  {
  }

  lemma MulMonotone(w: real, lo: real, x: real)
    requires 0.0 <= w && lo <= x
    ensures w * lo <= w * x
  {
    assert w * (x - lo) >= 0.0;
  }

  lemma DivNonNegative(a: real, s: real)
    requires 0.0 <= a && 0.0 < s
    ensures 0.0 <= a / s
  {
  }

  lemma DivSelf(s: real)
    requires s != 0.0
    ensures s / s == 1.0
  {
  }

  lemma DivAdd(a: real, b: real, s: real)
    requires s != 0.0
    ensures a / s + b / s == (a + b) / s
  {
  }

  lemma {:induction false} SumDivide(v: seq<real>, s: real)
    requires s != 0.0
    ensures Sum(Divide(v, s)) == Sum(v) / s
  {
    if |v| > 0 {
      assert Divide(v, s)[1..] == Divide(v[1..], s);
      SumDivide(v[1..], s);
      DivAdd(v[0], Sum(v[1..]), s);
    }
  }

  /**
   * Raw non-negative weights divided by their total (numpy's
   * `weight/np.sum(weight)`): each weight times the total gives back its draw.
   */
  function Normalise(raw: seq<real>): (w: seq<real>)
    requires NonNegative(raw) && Sum(raw) > 0.0
    ensures |w| == |raw| && IsWeights(w)
    ensures forall i :: 0 <= i < |raw| ==> w[i] * Sum(raw) == raw[i]
  {
    var s := Sum(raw);
    var d := Divide(raw, s);
    SumDivide(raw, s);
    assert Sum(d) == 1.0 by { DivSelf(s); }
    assert NonNegative(d) by {
      forall i | 0 <= i < |d| ensures 0.0 <= d[i] { DivNonNegative(raw[i], s); }
    }
    d
  }

  /**
   * The weights w scaled by `a`, plus `b` on position `c` (no bump when `c`
   * is out of range): the weights of a*p + b*cs[c] when w are those of p.
   */
  function Mix(a: real, b: real, w: seq<real>, c: int): (m: seq<real>)
    ensures |m| == |w|
  {
    if |w| == 0 then [] else [a * w[0] + (if c == 0 then b else 0.0)] + Mix(a, b, w[1..], c - 1)
  }

  /** Entry i of Mix(a, b, w, c) is a*w[i], plus b when i is c. */
  lemma {:induction false} MixAt(a: real, b: real, w: seq<real>, c: int, i: int)
    requires 0 <= i < |w|
    ensures Mix(a, b, w, c)[i] == a * w[i] + (if i == c then b else 0.0)
  {
    if i > 0 {
      MixAt(a, b, w[1..], c - 1, i - 1);
    }
  }

  /** Mix with no position to bump scales the total by `a`. */
  lemma {:induction false} ScaleSum(a: real, b: real, w: seq<real>, c: int)
    requires c < 0
    ensures Sum(Mix(a, b, w, c)) == a * Sum(w)
  {
    if |w| > 0 {
      assert Mix(a, b, w, c)[1..] == Mix(a, b, w[1..], c - 1);
      ScaleSum(a, b, w[1..], c - 1);
      MulOfSum(a, Sum(w), w[0], Sum(w[1..]));
    }
  }

  /** The weights Mix(a, b, w, c) total a times the old total plus b. */
  lemma {:induction false} MixSum(a: real, b: real, w: seq<real>, c: int)
    requires 0 <= c < |w|
    ensures Sum(Mix(a, b, w, c)) == a * Sum(w) + b
  {
    assert Mix(a, b, w, c)[1..] == Mix(a, b, w[1..], c - 1);
    MulOfSum(a, Sum(w), w[0], Sum(w[1..]));
    if c == 0 {
      ScaleSum(a, b, w[1..], c - 1);
    } else {
      MixSum(a, b, w[1..], c - 1);
    }
  }

  /** Along one axis, Mix with no position to bump scales the sum by `a`. */
  lemma {:induction false} ScaleDot(a: real, b: real, w: seq<real>, c: int, xs: seq<real>)
    requires |w| == |xs| && c < 0
    ensures Dot(Mix(a, b, w, c), xs) == a * Dot(w, xs)
  {
    if |w| > 0 {
      var m := Mix(a, b, w, c);
      assert m[1..] == Mix(a, b, w[1..], c - 1);
      ScaleDot(a, b, w[1..], c - 1, xs[1..]);
      MulOfSum(a, Dot(w, xs), w[0] * xs[0], Dot(w[1..], xs[1..]));
    }
  }

  /** Along one axis, the weights Mix(a, b, w, c) give a times the old sum plus b*xs[c]. */
  lemma {:induction false} MixDot(a: real, b: real, w: seq<real>, c: int, xs: seq<real>)
    requires |w| == |xs| && 0 <= c < |w|
    ensures Dot(Mix(a, b, w, c), xs) == a * Dot(w, xs) + b * xs[c]
  {
    var m := Mix(a, b, w, c);
    assert m[1..] == Mix(a, b, w[1..], c - 1);
    MulOfSum(a, Dot(w, xs), w[0] * xs[0], Dot(w[1..], xs[1..]));
    if c == 0 {
      ScaleDot(a, b, w[1..], c - 1, xs[1..]);
      MulOfSum(xs[0], m[0], a * w[0], b);
    } else {
      MixDot(a, b, w[1..], c - 1, xs[1..]);
      MulOfSum(xs[0], m[0], a * w[0], 0.0);
    }
  }

  /** When w gives the point p, the weights Mix(a, b, w, c) give a*p + b*cs[c]. */
  lemma MixWeightedSum(a: real, b: real, w: seq<real>, c: int, cs: seq<Point>)
    requires |w| == |cs| && 0 <= c < |cs|
    ensures WeightedSum(Mix(a, b, w, c), cs) == Plus(Scale(a, WeightedSum(w, cs)), Scale(b, cs[c]))
  {
    var xs, ys := Xs(cs), Ys(cs);
    assert xs[c] == cs[c].x && ys[c] == cs[c].y;
    MixDot(a, b, w, c, xs);
    MixDot(a, b, w, c, ys);
  }

  /** r*w + bump is non-negative when all three are, over plain reals. */
  lemma EntryNonNegative(r: real, wi: real, bump: real, mi: real)
    requires 0.0 <= r && 0.0 <= wi && 0.0 <= bump && mi == r * wi + bump
    ensures 0.0 <= mi
  {
    MulMonotone(r, 0.0, wi);
  }

  /** Mixing non-negative weights by non-negative amounts keeps them non-negative. */
  lemma MixNonNegative(a: real, b: real, w: seq<real>, c: int)
    requires NonNegative(w) && 0.0 <= a && 0.0 <= b
    ensures NonNegative(Mix(a, b, w, c))
  {
    var m := Mix(a, b, w, c);
    forall i | 0 <= i < |m| ensures 0.0 <= m[i] {
      var bump := if i == c then b else 0.0;
      var wi := w[i];
      MixAt(a, b, w, c, i);
      EntryNonNegative(a, wi, bump, m[i]);
    }
  }

  /** The total r*1 + (1 - r) is one, over plain reals. */
  lemma RatioTotal(r: real, s: real, t: real)
    requires s == 1.0 && t == r * s + (1.0 - r)
    ensures t == 1.0
  {
  }

  /** Mixing weights with one corner by the ratio r in [0, 1] gives weights again. */
  lemma MixIsWeights(r: real, w: seq<real>, c: int)
    requires IsWeights(w) && 0.0 <= r <= 1.0 && 0 <= c < |w|
    ensures IsWeights(Mix(r, 1.0 - r, w, c))
  {
    MixNonNegative(r, 1.0 - r, w, c);
    MixSum(r, 1.0 - r, w, c);
    RatioTotal(r, Sum(w), Sum(Mix(r, 1.0 - r, w, c)));
  }

  /**
   * Moving a hull point towards one of the corners by the ratio 0 <= r <= 1
   * (r*p + (1-r)*cs[c]) stays in the hull.
   */
  lemma StepInHull(p: Point, cs: seq<Point>, r: real, c: int)
    requires InHull(p, cs)
    requires 0.0 <= r <= 1.0 && 0 <= c < |cs|
    ensures InHull(Plus(Scale(r, p), Scale(1.0 - r, cs[c])), cs)
  {
    var w :| |w| == |cs| && IsWeights(w) && WeightedSum(w, cs) == p;
    MixIsWeights(r, w, c);
    MixWeightedSum(r, 1.0 - r, w, c, cs);
  }

  /** The inductive step of DotLower, over plain reals. */
  lemma LowerStep(w0: real, x0: real, st: real, t: real, lo: real, s: real, d: real)
    requires 0.0 <= w0 && lo <= x0 && st * lo <= t
    requires s == w0 + st && d == w0 * x0 + t
    ensures s * lo <= d
  {
    MulMonotone(w0, lo, x0);
    MulOfSum(lo, s, w0, st);
  }

  /** The inductive step of DotUpper, over plain reals. */
  lemma UpperStep(w0: real, x0: real, st: real, t: real, hi: real, s: real, d: real)
    requires 0.0 <= w0 && x0 <= hi && t <= st * hi
    requires s == w0 + st && d == w0 * x0 + t
    ensures d <= s * hi
  {
    MulMonotone(w0, x0, hi);
    MulOfSum(hi, s, w0, st);
  }

  /** Along one axis, a non-negative combination of values at least lo is at least Sum(w)*lo. */
  lemma {:induction false} DotLower(w: seq<real>, xs: seq<real>, lo: real)
    requires |w| == |xs| && NonNegative(w)
    requires forall i :: 0 <= i < |xs| ==> lo <= xs[i]
    ensures Sum(w) * lo <= Dot(w, xs)
  {
    if |w| > 0 {
      DotLower(w[1..], xs[1..], lo);
      LowerStep(w[0], xs[0], Sum(w[1..]), Dot(w[1..], xs[1..]), lo, Sum(w), Dot(w, xs));
    }
  }

  /** Along one axis, a non-negative combination of values at most hi is at most Sum(w)*hi. */
  lemma {:induction false} DotUpper(w: seq<real>, xs: seq<real>, hi: real)
    requires |w| == |xs| && NonNegative(w)
    requires forall i :: 0 <= i < |xs| ==> xs[i] <= hi
    ensures Dot(w, xs) <= Sum(w) * hi
  {
    if |w| > 0 {
      DotUpper(w[1..], xs[1..], hi);
      UpperStep(w[0], xs[0], Sum(w[1..]), Dot(w[1..], xs[1..]), hi, Sum(w), Dot(w, xs));
    }
  }

  /** A point of the hull lies within every box that holds all the corners. */
  lemma HullInBox(p: Point, cs: seq<Point>, lo: Point, hi: Point)
    requires InHull(p, cs)
    requires forall i :: 0 <= i < |cs| ==> InBox(cs[i], lo, hi)
    ensures InBox(p, lo, hi)
  {
    var w :| |w| == |cs| && IsWeights(w) && WeightedSum(w, cs) == p;
    DotLower(w, Xs(cs), lo.x);
    DotUpper(w, Xs(cs), hi.x);
    DotLower(w, Ys(cs), lo.y);
    DotUpper(w, Ys(cs), hi.y);
  }
}
