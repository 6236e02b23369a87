/**
 * The n-gon chaos game: argument validation, the random convex starting point,
 * the recurrence X[i+1] = r*X[i] + (1-r)*corners[c], the removal of two
 * burn-in positions, the colour smoothing, and how `savepng` names its file.
 *
 * The corners (sines and cosines of multiples of 2*pi/n) are an input sequence
 * of n points, and the random draws are input sequences.
 */
module ChaosGame {
  import opened Wrappers
  import opened Plane
  import SeqFacts
  import opened Convex
  import PosixPath

  // ---------------------------------------------------------------------------
  // Constructor validation

  /** The value passed as `n`: a Python int or a Python float. */
  datatype Number = Int(i: int) | Float(f: real)

  function Value(n: Number): real {
    match n
    case Int(i) => i as real
    case Float(f) => f
  }

  /** The exceptions `__init__` raises, in the order it checks for them. */
  datatype InitError =
    | RatioOutOfRange        // ValueError: r outside [0, 1]
    | TooFewCorners          // ValueError: n < 3
    | CornerCountNotInteger  // TypeError: n is not an int

  datatype ExceptionClass = ValueError | TypeError

  function ClassOf(e: InitError): ExceptionClass {
    if e == CornerCountNotInteger then TypeError else ValueError
  }

  /** The checks of `__init__`: on success, the number of corners. */
  function Validate(n: Number, r: real): (res: Result<nat, InitError>)
    ensures res.Success? <==> 0.0 <= r <= 1.0 && n.Int? && n.i >= 3
    ensures res.Success? ==> res.value == n.i
    ensures res == Failure(RatioOutOfRange) <==> r < 0.0 || 1.0 < r
    ensures res == Failure(TooFewCorners) <==> 0.0 <= r <= 1.0 && Value(n) < 3.0
    ensures res == Failure(CornerCountNotInteger) <==> 0.0 <= r <= 1.0 && 3.0 <= Value(n) && n.Float?
  {
    if r < 0.0 || 1.0 < r then Failure(RatioOutOfRange)
    else if Value(n) < 3.0 then Failure(TooFewCorners)
    else if n.Float? then Failure(CornerCountNotInteger)
    else Success(n.i)
  }

  /** Both endpoints of [0, 1] are accepted as ratios. */
  lemma RatioEndpointsAccepted(k: int)
    requires k >= 3
    ensures Validate(Int(k), 0.0) == Success(k)
    ensures Validate(Int(k), 1.0) == Success(k)
  {
  }

  /**
   * The size check comes before the type check: a float below 3 is a
   * ValueError, a float of at least 3 a TypeError.
   */
  lemma SizeCheckedBeforeType(f: real, r: real)
    requires 0.0 <= r <= 1.0
    ensures f < 3.0 ==> ClassOf(Validate(Float(f), r).error) == ValueError
    ensures 3.0 <= f ==> ClassOf(Validate(Float(f), r).error) == TypeError
  {
  }

  // ---------------------------------------------------------------------------
  // Starting point

  /**
   * `_starting_point`: the corners weighted by the raw random weights divided
   * by their total, so a convex combination of the corners.
   */
  function StartingPoint(corners: seq<Point>, raw: seq<real>): (p: Point)
    requires |raw| == |corners| && NonNegative(raw) && Sum(raw) > 0.0
    ensures InHull(p, corners)
  {
    var w := Normalise(raw);
    WeightsGiveHullPoint(w, corners);
    WeightedSum(w, corners)
  }

  // ---------------------------------------------------------------------------
  // The recurrence

  /**
   * One move of the game: r times the previous point plus (1 - r) times the
   * corner. Seen from the corner, the offset of the point shrinks by the factor r.
   */
  function Step(r: real, p: Point, corner: Point): (q: Point)
    ensures q.x - corner.x == r * (p.x - corner.x)
    ensures q.y - corner.y == r * (p.y - corner.y)
  {
    Plus(Scale(r, p), Scale(1.0 - r, corner))
  }

  predicate ValidChoices(choices: seq<int>, n: int) {
    forall i :: 0 <= i < |choices| ==> 0 <= choices[i] < n
  }

  /** The points the loop of `iterate` writes into X, for the corners it draws. */
  function Orbit(start: Point, r: real, corners: seq<Point>, choices: seq<int>): (xs: seq<Point>)
    requires ValidChoices(choices, |corners|)
    ensures |xs| == |choices| + 1 && xs[0] == start
    decreases |choices|
  {
    if |choices| == 0 then [start]
    else
      var prev := Orbit(start, r, corners, choices[..|choices| - 1]);
      prev + [Step(r, prev[|prev| - 1], corners[choices[|choices| - 1]])]
  }

  /** Each point of the orbit is the step from its predecessor towards the chosen corner. */
  lemma {:induction false} OrbitStep(start: Point, r: real, corners: seq<Point>, choices: seq<int>, i: nat)
    requires ValidChoices(choices, |corners|)
    requires i < |choices|
    ensures Orbit(start, r, corners, choices)[i + 1]
            == Step(r, Orbit(start, r, corners, choices)[i], corners[choices[i]])
  {
    var k := |choices| - 1;
    var prefix := choices[..k];
    if i < k {
      assert prefix[i] == choices[i];
      OrbitStep(start, r, corners, prefix, i);
    }
  }

  /** Extending the draws by one appends the step from the last point. */
  lemma OrbitSnoc(start: Point, r: real, corners: seq<Point>, choices: seq<int>, i: nat)
    requires ValidChoices(choices, |corners|) && i < |choices|
    ensures Orbit(start, r, corners, choices[..i + 1])
            == Orbit(start, r, corners, choices[..i])
               + [Step(r, Orbit(start, r, corners, choices[..i])[i], corners[choices[i]])]
  {
    assert choices[..i + 1][..i] == choices[..i];
  }

  /** With 0 <= r <= 1 every point of the orbit stays a convex combination of the corners. */
  lemma {:induction false} OrbitInHull(start: Point, r: real, corners: seq<Point>, choices: seq<int>)
    requires ValidChoices(choices, |corners|)
    requires 0.0 <= r <= 1.0 && InHull(start, corners)
    ensures forall i :: 0 <= i < |choices| + 1 ==> InHull(Orbit(start, r, corners, choices)[i], corners)
    decreases |choices|
  {
    if |choices| > 0 {
      var k := |choices| - 1;
      var prev := Orbit(start, r, corners, choices[..k]);
      OrbitInHull(start, r, corners, choices[..k]);
      StepInHull(prev[k], corners, r, choices[k]);
    }
  }

  /** Hence every point lies within any box that holds all corners. */
  lemma OrbitInBox(start: Point, r: real, corners: seq<Point>, choices: seq<int>, lo: Point, hi: Point)
    requires ValidChoices(choices, |corners|)
    requires 0.0 <= r <= 1.0 && InHull(start, corners)
    requires forall c :: 0 <= c < |corners| ==> InBox(corners[c], lo, hi)
    ensures forall i :: 0 <= i < |choices| + 1 ==> InBox(Orbit(start, r, corners, choices)[i], lo, hi)
  {
    OrbitInHull(start, r, corners, choices);
    forall i | 0 <= i < |choices| + 1
      ensures InBox(Orbit(start, r, corners, choices)[i], lo, hi)
    {
      HullInBox(Orbit(start, r, corners, choices)[i], corners, lo, hi);
    }
  }

  // ---------------------------------------------------------------------------
  // Removing positions 0 and `discard`

  /** The position in the original array of entry `i` of the shortened one. */
  function Kept(i: nat, k: nat): (j: nat)
    ensures j != 0 && j != k
  {
    if i + 1 < k then i + 1 else i + 2
  }

  /** `np.delete(s, (0, k), axis=0)`: exactly positions 0 and k removed, order kept. */
  function DeleteTwo<T>(s: seq<T>, k: nat): (t: seq<T>)
    requires 0 < k < |s|
    ensures |t| == |s| - 2
    ensures forall i :: 0 <= i < |t| ==> Kept(i, k) < |s| && t[i] == s[Kept(i, k)]
  {
    s[1..k] + s[k + 1..]
  }

  /** Kept lists every position other than 0 and k, in increasing order. */
  lemma KeptIsOrderedAndOnto(i: nat, k: nat, j: nat, len: nat)
    requires 0 < k < len && 0 < j < len && j != k
    ensures (if j < k then j - 1 else j - 2) < len - 2
    ensures Kept(if j < k then j - 1 else j - 2, k) == j
    ensures Kept(i, k) < Kept(i + 1, k)
  {
  }

  /** What was removed is exactly the two entries at positions 0 and k. */
  lemma DeleteTwoMultiset<T>(s: seq<T>, k: nat)
    requires 0 < k < |s|
    ensures multiset(DeleteTwo(s, k)) + multiset{s[0], s[k]} == multiset(s)
  {
    assert s == [s[0]] + s[1..k] + [s[k]] + s[k + 1..];
  }

  /**
   * After the removal the two arrays stay aligned: each kept point is the step
   * from its original predecessor towards the corner recorded beside it.
   */
  lemma KeptPointsMatchCorners(start: Point, r: real, corners: seq<Point>, choices: seq<int>, k: nat, i: nat)
    requires ValidChoices(choices, |corners|)
    requires 0 < k < |choices| + 1
    requires i < |choices| - 1
    ensures DeleteTwo([0] + choices, k)[i] == choices[Kept(i, k) - 1]
    ensures DeleteTwo(Orbit(start, r, corners, choices), k)[i]
            == Step(r, Orbit(start, r, corners, choices)[Kept(i, k) - 1], corners[DeleteTwo([0] + choices, k)[i]])
  {
    OrbitStep(start, r, corners, choices, Kept(i, k) - 1);
  }

  /** For discard >= 2, the first point kept is X[1], one of the burn-in points. */
  lemma FirstKeptIsSecondPoint(start: Point, r: real, corners: seq<Point>, choices: seq<int>, k: nat)
    requires ValidChoices(choices, |corners|)
    requires 2 <= k < |choices| + 1
    ensures DeleteTwo(Orbit(start, r, corners, choices), k)[0] == Orbit(start, r, corners, choices)[1]
  {
  }

  /**
   * The loop of `iterate`: fills an array of steps = |choices| + 1 points from
   * the start value, and records the corner index of every round after a 0.
   */
  method FillOrbit(start: Point, r: real, corners: seq<Point>, choices: seq<int>)
    returns (xs: seq<Point>, rc: seq<int>)
    requires ValidChoices(choices, |corners|)
    ensures xs == Orbit(start, r, corners, choices)
    ensures rc == [0] + choices
  {
    var steps := |choices| + 1;
    var pts := new Point[steps];
    pts[0] := start;
    var cs := new int[steps](_ => 0);
    for i := 0 to steps - 1
      invariant pts[..i + 1] == Orbit(start, r, corners, choices[..i])
      invariant cs[..i + 1] == [0] + choices[..i]
    {
      var c := choices[i];
      OrbitSnoc(start, r, corners, choices, i);
      pts[i + 1] := Step(r, pts[i], corners[c]);
      cs[i + 1] := c;
      SeqFacts.TakeSnoc(pts[..], i + 1);
      SeqFacts.TakeSnoc(cs[..], i + 1);
      SeqFacts.ConsTakeSnoc(0, choices, i);
    }
    assert choices[..steps - 1] == choices;
    assert pts[..] == pts[..steps];
    assert cs[..] == cs[..steps];
    return pts[..], cs[..];
  }

  /** The points left after the removal are still convex combinations of the corners. */
  lemma KeptPointsInHull(start: Point, r: real, corners: seq<Point>, choices: seq<int>, k: nat)
    requires ValidChoices(choices, |corners|)
    requires 0.0 <= r <= 1.0 && InHull(start, corners)
    requires 0 < k < |choices| + 1
    ensures forall i :: 0 <= i < |choices| - 1 ==>
              InHull(DeleteTwo(Orbit(start, r, corners, choices), k)[i], corners)
  {
    var xs := Orbit(start, r, corners, choices);
    OrbitInHull(start, r, corners, choices);
    forall i | 0 <= i < |choices| - 1
      ensures InHull(DeleteTwo(xs, k)[i], corners)
    {
      assert DeleteTwo(xs, k)[i] == xs[Kept(i, k)];
    }
  }

  /** The corner indices left after the removal all lie in [0, n). */
  lemma KeptCornersInRange(choices: seq<int>, n: int, k: nat)
    requires ValidChoices(choices, n) && 0 < n
    requires 0 < k < |choices| + 1
    ensures forall i :: 0 <= i < |choices| - 1 ==> 0 <= DeleteTwo([0] + choices, k)[i] < n
  {
    forall i | 0 <= i < |choices| - 1
      ensures 0 <= DeleteTwo([0] + choices, k)[i] < n
    {
      assert DeleteTwo([0] + choices, k)[i] == choices[Kept(i, k) - 1];
    }
  }

  // ---------------------------------------------------------------------------
  // Colour smoothing

  /**
   * `_method_compute_color`: the first colour is the first recorded corner; each
   * later colour is the mean of the previous colour and the next corner.
   */
  function Smoothed(rc: seq<int>): (cs: seq<real>)
    requires |rc| > 0
    ensures |cs| == |rc| && cs[0] == rc[0] as real
    decreases |rc|
  {
    if |rc| == 1 then [rc[0] as real]
    else
      var prev := Smoothed(rc[..|rc| - 1]);
      prev + [0.5 * (prev[|prev| - 1] + rc[|rc| - 1] as real)]
  }

  lemma {:induction false} SmoothedStep(rc: seq<int>, i: nat)
    requires i + 1 < |rc|
    ensures Smoothed(rc)[i + 1] == 0.5 * (Smoothed(rc)[i] + rc[i + 1] as real)
    decreases |rc|
  {
    var prefix := rc[..|rc| - 1];
    if i + 1 < |prefix| {
      SmoothedStep(prefix, i);
    }
  }

  /** Averaging keeps every colour within the range of the corner indices. */
  lemma {:induction false} SmoothedRange(rc: seq<int>, lo: int, hi: int)
    requires |rc| > 0
    requires forall i :: 0 <= i < |rc| ==> lo <= rc[i] <= hi
    ensures forall i :: 0 <= i < |rc| ==> lo as real <= Smoothed(rc)[i] <= hi as real
    decreases |rc|
  {
    if |rc| > 1 {
      var prefix := rc[..|rc| - 1];
      SmoothedRange(prefix, lo, hi);
      assert rc[|rc| - 1] in rc;
    }
  }

  // ---------------------------------------------------------------------------
  // Output file name of `savepng`

  /** The NameError `savepng` raises for an extension other than ".png". */
  datatype SaveError = ExtensionNotPng

  /**
   * The file `savepng` writes to: the name as given when its extension is
   * exactly ".png", the name with ".png" appended when it has no extension,
   * and a NameError for any other extension (".PNG" included).
   */
  function ResolveFilename(outfile: string): (res: Result<string, SaveError>)
    ensures res.Success? <==> PosixPath.SplitExt(outfile).1 in [".png", ""]
    ensures res.Success? && PosixPath.SplitExt(outfile).1 == ".png" ==> res.value == outfile
    ensures res.Success? && PosixPath.SplitExt(outfile).1 == "" ==> res.value == outfile + ".png"
  {
    var (name, ext) := PosixPath.SplitExt(outfile);
    if ext == ".png" then Success(outfile)
    else if ext == [] then Success(name + ".png")
    else Failure(ExtensionNotPng)
  }

  /** Every name `savepng` accepts is resolved to one that ends in ".png". */
  lemma ResolvedEndsInPng(outfile: string)
    requires ResolveFilename(outfile).Success?
    ensures var f := ResolveFilename(outfile).value;
            |f| >= 4 && f[|f| - 4..] == ".png"
  {
    var ext := PosixPath.SplitExt(outfile).1;
    if ext == "" {
      var f := outfile + ".png";
      assert f[|outfile|..] == ".png";
    } else {
      assert ext == ".png";
      assert outfile[|outfile| - 4..] == ext;
    }
  }

  /**
   * Resolving a resolved name again changes nothing, provided the last path
   * component of the name given holds a character other than '.' (for ""
   * it does not: "" resolves to ".png", which resolves to ".png.png").
   */
  lemma ResolveIdempotent(outfile: string)
    requires ResolveFilename(outfile).Success? && PosixPath.HasStem(outfile)
    ensures var f := ResolveFilename(outfile).value;
            |f| >= 4 && f[|f| - 4..] == ".png" && ResolveFilename(f) == Success(f)
  {
    ResolvedEndsInPng(outfile);
    if PosixPath.SplitExt(outfile).1 == "" {
      assert outfile + ['.'] + "png" == outfile + ".png";
      PosixPath.SplitExtAtLastDot(outfile, "png");
    }
  }

  /** A bare empty name resolves to ".png" ... */
  lemma EmptyNameGetsPng()
    ensures ResolveFilename("") == Success(".png")
  {
    PosixPath.SplitExtNoExtension("");
    assert "" + ".png" == ".png";
  }

  /**
   * ... and ".png" is a stem 'png' behind a leading dot: a leading dot starts
   * no extension, so ".png" is written to ".png.png", which has the extension
   * ".png" and resolves to itself.
   */
  lemma LeadingDotNameSettles()
    ensures ResolveFilename(".png") == Success(".png.png")
    ensures ResolveFilename(".png.png") == Success(".png.png")
  {
    PosixPath.RFindUnique(".png", '/', -1);
    PosixPath.RFindUnique(".png", '.', 0);
    PosixPath.SplitExtNoExtension(".png");
    assert ".png" + ".png" == ".png.png";
    assert PosixPath.HasStem(".png") by {
      assert ".png"[1] != '.';
    }
    ResolveIdempotent(".png");
  }

  /** "test fig" has the stem 't': no '/' and a first character other than '.'. */
  lemma TestFigHasStem()
    ensures PosixPath.HasStem("test fig")
  {
    PosixPath.RFindUnique("test fig", '/', -1);
    assert "test fig"[0] != '.';
  }

  /** The tests' "test fig.jpeg" raises the NameError. */
  lemma JpegNameRefused()
    ensures ResolveFilename("test fig.jpeg") == Failure(ExtensionNotPng)
  {
    TestFigHasStem();
    assert "test fig" + ['.'] + "jpeg" == "test fig.jpeg";
    PosixPath.SplitExtAtLastDot("test fig", "jpeg");
  }

  /** The tests' "test fig" is written to "test fig.png". */
  lemma BareNameGetsPng()
    ensures ResolveFilename("test fig") == Success("test fig.png")
  {
    PosixPath.RFindUnique("test fig", '.', -1);
    PosixPath.SplitExtNoExtension("test fig");
    assert "test fig" + ".png" == "test fig.png";
  }

  /** The tests' "test fig.png" is written to under its own name. */
  lemma PngNameKept()
    ensures ResolveFilename("test fig.png") == Success("test fig.png")
  {
    TestFigHasStem();
    assert "test fig" + ['.'] + "png" == "test fig.png";
    PosixPath.SplitExtAtLastDot("test fig", "png");
  }

  /** The comparison with ".png" is case-sensitive: "fig.PNG" is refused. */
  lemma UppercasePngRefused()
    ensures ResolveFilename("fig.PNG") == Failure(ExtensionNotPng)
  {
    PosixPath.RFindUnique("fig", '/', -1);
    assert "fig"[0] != '.';
    assert "fig" + ['.'] + "PNG" == "fig.PNG";
    PosixPath.SplitExtAtLastDot("fig", "PNG");
  }

  // ---------------------------------------------------------------------------
  // The game object

  /** Why reading `color` fails: AttributeError before `iterate`, IndexError on no points. */
  datatype ColorError = NotIterated | NoPoints

  class ChaosGame {
    const n: nat
    const r: real
    const corners: seq<Point>
    var startValue: Point
    /** Whether `iterate` has run, i.e. whether X and `_random_corners` exist. */
    var iterated: bool
    var X: seq<Point>
    var randomCorners: seq<int>

    ghost predicate Valid()
      reads this
    {
      && n >= 3 && |corners| == n && 0.0 <= r <= 1.0
      && InHull(startValue, corners)
      && |X| == |randomCorners|
      && (forall i :: 0 <= i < |X| ==> InHull(X[i], corners))
      && (forall i :: 0 <= i < |randomCorners| ==> 0 <= randomCorners[i] < n)
      && (!iterated ==> X == [])
    }

    /** `__init__` once its checks have passed (see NewChaosGame). */
    constructor (n: nat, r: real, corners: seq<Point>, weights: seq<real>)
      requires Validate(Int(n), r).Success?
      requires |corners| == n && |weights| == n && NonNegative(weights) && Sum(weights) > 0.0
      ensures Valid() && !iterated
      ensures this.n == n && this.r == r && this.corners == corners
      ensures startValue == StartingPoint(corners, weights)
    {
      this.n := n;
      this.r := r;
      this.corners := corners;
      startValue := StartingPoint(corners, weights);
      iterated := false;
      X := [];
      randomCorners := [];
    }

    /** `_starting_point`, called again: a fresh convex combination of the corners. */
    method PickStartingPoint(weights: seq<real>)
      requires Valid()
      requires |weights| == n && NonNegative(weights) && Sum(weights) > 0.0
      modifies this`startValue
      ensures Valid() && startValue == StartingPoint(corners, weights)
    {
      startValue := StartingPoint(corners, weights);
    }

    /**
     * `iterate(steps, discard)`, with `choices[i]` the corner drawn in round i.
     * Fills the arrays of `steps` points and corner indices, then keeps them
     * without positions 0 and `discard`.
     */
    method Iterate(steps: nat, choices: seq<int>, discard: nat := 5)
      requires Valid()
      requires 0 < discard < steps
      requires |choices| == steps - 1 && ValidChoices(choices, n)
      modifies this`X, this`randomCorners, this`iterated
      ensures Valid() && iterated
      ensures X == DeleteTwo(Orbit(startValue, r, corners, choices), discard)
      ensures randomCorners == DeleteTwo([0] + choices, discard)
    {
      var xs, rc := FillOrbit(startValue, r, corners, choices);
      KeptPointsInHull(startValue, r, corners, choices, discard);
      KeptCornersInRange(choices, n, discard);
      randomCorners := DeleteTwo(rc, discard);
      X := DeleteTwo(xs, discard);
      iterated := true;
    }

    /**
     * The `color` property: recomputes the smoothed colours from the recorded
     * corners; it changes no field.
     */
    method Color() returns (res: Result<seq<real>, ColorError>)
      requires Valid()
      ensures !iterated ==> res == Failure(NotIterated)
      ensures iterated && |X| == 0 ==> res == Failure(NoPoints)
      ensures iterated && |X| > 0 ==> res == Success(Smoothed(randomCorners))
      ensures res.Success? ==>
                |res.value| == |X| &&
                forall i :: 0 <= i < |X| ==> 0.0 <= res.value[i] <= (n - 1) as real
    {
      if !iterated {
        return Failure(NotIterated);
      }
      if |randomCorners| == 0 {
        return Failure(NoPoints);
      }
      var colors := [randomCorners[0] as real];
      for i := 0 to |X| - 1
        invariant colors == Smoothed(randomCorners[..i + 1])
      {
        assert randomCorners[..i + 2][..i + 1] == randomCorners[..i + 1];
        colors := colors + [0.5 * (colors[i] + randomCorners[i + 1] as real)];
      }
      assert randomCorners[..|X|] == randomCorners;
      SmoothedRange(randomCorners, 0, n - 1);
      return Success(colors);
    }
  }

  /**
   * Construction of a ChaosGame(n, r): the checks of `__init__` in their order,
   * then the object with its starting point.
   */
  method NewChaosGame(corners: seq<Point>, weights: seq<real>, n: Number := Int(3), r: real := 0.5)
    returns (res: Result<ChaosGame, InitError>)
    requires Validate(n, r).Success? ==>
               |corners| == n.i && |weights| == n.i && NonNegative(weights) && Sum(weights) > 0.0
    ensures Validate(n, r).Failure? ==> res == Failure(Validate(n, r).error)
    ensures Validate(n, r).Success? ==>
              res.Success? && fresh(res.value) && res.value.Valid() && !res.value.iterated &&
              res.value.n == n.i && res.value.r == r && res.value.corners == corners &&
              res.value.startValue == StartingPoint(corners, weights)
  {
    var checked := Validate(n, r);
    if checked.Failure? {
      return Failure(checked.error);
    }
    var game := new ChaosGame(checked.value, r, corners, weights);
    return Success(game);
  }
}
