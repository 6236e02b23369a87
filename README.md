# Chaos game and affine fern, modelled in Dafny

This project models the two point generators of the Chaos repository:

- **The n-gon chaos game** (`chaos_game.py`, class `ChaosGame`). The constructor validates
  `n` and `r`. `_starting_point` picks a random convex combination of the polygon's corners.
  `iterate` runs the recurrence `X[i+1] = r*X[i] + (1-r)*corners[c]` and records each chosen
  corner. It then removes positions 0 and `discard` from both arrays. The `color` property
  smooths the recorded corner indices into colour values. `savepng` works out the name of the
  file it writes from the extension of the name it is given.
- **The Barnsley fern** (`fern.py`). `AffineTransform` is a 2-by-2 matrix plus a constant
  vector. `next_point` picks one of four maps by scanning a cumulative-probability table.
  `fern_maker` iterates from the origin.

Coordinates are exact `real`s. The corners (sines and cosines in the source) are an input
sequence of `n` points. Every random draw is an input sequence: the raw starting weights, the
corner index of each round, and the fern's uniform draws. Preconditions constrain these
sequences to what the random number generator produces.

Modules:

- `Wrappers`: Option and Result types.
- `Plane`: points, boxes and the dot product of two real sequences (one coordinate of a weighted sum, one row of a matrix product).
- `Convex`: weights, weighted sums (one axis at a time), the convex hull, and its bounding
  boxes.
- `PosixPath`: `os.path.splitext`.
- `SeqFacts`: two facts about sequence prefixes used by the array loops.
- `ChaosGame`: covers `chaos_game.py`. The class `ChaosGame.ChaosGame` holds the fields
  that `__init__`, `_starting_point` and `iterate` assign.
- `Fern`: covers `fern.py`.

Where the documentation and the code disagree, the model follows the code:

- The doc-comment of `iterate` (chaos_game.py:58) says `discard` is the number of first
  values to delete. The code (chaos_game.py:75-76) calls `np.delete(..., (0, discard))`,
  which removes only the two positions 0 and `discard`. `DeleteTwo` models that.
  `FirstKeptIsSecondPoint` shows that for `discard >= 2` the burn-in point `X[1]` is kept as
  the first point.
- The class doc-comment gives the range of `r` as (0, 1) (chaos_game.py:14). The check at
  chaos_game.py:24 accepts both endpoints 0 and 1. `RatioEndpointsAccepted` states this.

The shape of `Iterate` and `Color` follows the source. `Iterate` fills two arrays of length
`steps` in a loop (`FillOrbit`), then assigns the shortened sequences to the object's fields. `Color`
builds its list in a loop and changes nothing: it has no `modifies` clause. `FernMaker` fills
an array of `n` rows in a loop.

## Model

| member | source | states |
|---|---|---|
| `ChaosGame.Validate` | chaos_game.py:20-31 | the checks run in the source's order: r outside [0, 1] is the first ValueError, then n < 3 is a ValueError (compared by value, so a float below 3 also fails here), then a non-int n is a TypeError; success exactly when 0 <= r <= 1 and n is an int of at least 3 |
| `ChaosGame.RatioEndpointsAccepted` | chaos_game.py:24-25 | r = 0 and r = 1 are both accepted |
| `ChaosGame.SizeCheckedBeforeType` | chaos_game.py:27-31 | a float n below 3 raises a ValueError; a float n of at least 3 raises a TypeError |
| `ChaosGame.NewChaosGame` | chaos_game.py:20-34 | constructing ChaosGame(n, r) fails with exactly the error Validate gives; otherwise it yields a fresh valid object with those n, r and corners, not yet iterated, whose start value is the weighted starting point |
| `ChaosGame.ChaosGame.constructor` | chaos_game.py:20-34 | after the checks the object holds n, r and the corners, and its start value is StartingPoint of the weights; the object invariant holds |
| `Convex.Normalise` | chaos_game.py:45-46 | dividing non-negative raw weights by their total gives non-negative weights that sum to 1, and each weight times the total is its own raw draw |
| `Convex.WeightsGiveHullPoint` | chaos_game.py:48-49 | weights that are non-negative and sum to 1 make the weighted sum of the corners a point of their convex hull |
| `ChaosGame.StartingPoint` | chaos_game.py:43-49 | the corners weighted by the normalised weights form a convex combination of the corners |
| `ChaosGame.ChaosGame.PickStartingPoint` | chaos_game.py:43-49 | calling `_starting_point` again replaces only the start value; the new value is StartingPoint of the new weights, and the invariant still holds |
| `ChaosGame.Step` | chaos_game.py:72 | seen from the chosen corner, the new point's offset is r times the old point's offset, in x and in y |
| `ChaosGame.Orbit` | chaos_game.py:66-73 | the array filled by the loop has one more point than there are draws, and its first point is the start value |
| `ChaosGame.OrbitStep` | chaos_game.py:70-73 | point i+1 equals r times point i plus (1 - r) times the corner drawn in round i |
| `Convex.MixWeightedSum` | chaos_game.py:72 | if weights w give the point p, then w scaled by a, with b added at corner c, give a*p + b*corners[c] |
| `Convex.MixIsWeights` | chaos_game.py:72 | scaling weights by r in [0, 1] and adding 1 - r at one corner gives weights again: non-negative, summing to 1 |
| `Convex.StepInHull` | chaos_game.py:72 | when 0 <= r <= 1, moving a hull point towards a corner keeps it in the corners' convex hull |
| `ChaosGame.OrbitInHull` | chaos_game.py:67-73 | every generated point is a convex combination of the corners |
| `Convex.HullInBox` | chaos_game.py:67-73 | a convex combination of the corners lies in every axis-parallel box that holds all the corners |
| `ChaosGame.OrbitInBox` | chaos_game.py:67-73 | every generated point lies within the corners' coordinate bounds |
| `ChaosGame.DeleteTwo` | chaos_game.py:75-76 | the result is two entries shorter, and entry i is the original entry at position Kept(i, k), so positions 0 and k are skipped and the order is kept |
| `ChaosGame.KeptIsOrderedAndOnto` | chaos_game.py:75-76 | every position other than 0 and k of a sequence of length len is kept, at an index of the sequence two shorter, and the kept positions increase |
| `ChaosGame.DeleteTwoMultiset` | chaos_game.py:75-76 | the removed entries are exactly those at positions 0 and k |
| `ChaosGame.KeptPointsMatchCorners` | chaos_game.py:66-76 | after the deletion, X and the corner record stay aligned: each kept point is the step from its original predecessor towards the corner recorded at the same index |
| `ChaosGame.FirstKeptIsSecondPoint` | chaos_game.py:75-76 | for discard >= 2 the first kept point is the second generated point, so the deletion removes no prefix |
| `ChaosGame.KeptPointsInHull` | chaos_game.py:66-76 | every point left after the deletion is a convex combination of the corners |
| `ChaosGame.KeptCornersInRange` | chaos_game.py:68-76 | every corner index left after the deletion lies in [0, n) |
| `ChaosGame.FillOrbit` | chaos_game.py:66-73 | the loop fills the point array with exactly the orbit of the start value, and the corner array with 0 followed by the drawn corners |
| `ChaosGame.ChaosGame.Iterate` | chaos_game.py:52-76 | X is the orbit of the start value with positions 0 and discard removed; the corner record is [0] followed by the drawn corners, with the same two positions removed; the invariant holds (equal lengths, every point in the hull, every index in [0, n)) |
| `ChaosGame.Smoothed` | chaos_game.py:79-87 | there is one colour per recorded corner, and the first colour is the first recorded corner index |
| `ChaosGame.SmoothedStep` | chaos_game.py:84-85 | each later colour is the mean of the previous colour and the next corner index |
| `ChaosGame.SmoothedRange` | chaos_game.py:81-87 | if every corner index lies in [lo, hi], so does every colour |
| `ChaosGame.ChaosGame.Color` | chaos_game.py:79-92 | the `color` property fails before `iterate` (AttributeError) and fails when there are no points (IndexError); otherwise it returns Smoothed of the corner record, one value per point, each in [0, n - 1]; it changes no field |
| `PosixPath.RFind` | chaos_game.py:132 | returns the index of the last occurrence of a character, or -1 when there is none |
| `PosixPath.SplitExt` | chaos_game.py:132 | root + extension rebuilds the path; the extension is empty, or it starts with '.' and contains no further '.' and no '/' |
| `PosixPath.SplitExtAtLastDot` | chaos_game.py:132 | round trip: a root whose last component holds a non-dot character, then '.' and a suffix without '.' or '/', splits back into exactly that root and that extension |
| `PosixPath.SplitExtNoExtension` | chaos_game.py:132 | the extension is empty exactly when the last component has no '.', or holds only dots before its last '.' |
| `ChaosGame.ResolveFilename` | chaos_game.py:132-139 | an extension exactly ".png" keeps the name; no extension appends ".png"; any other extension, ".PNG" included, gives the NameError |
| `ChaosGame.ResolvedEndsInPng` | chaos_game.py:132-139 | every name that is accepted (extension ".png" or none) resolves to a name ending in ".png" |
| `ChaosGame.ResolveIdempotent` | chaos_game.py:132-139 | a resolved name ends in ".png", and resolving it again returns it unchanged, when the last path component of the name given holds a character other than '.' |
| `ChaosGame.EmptyNameGetsPng` | chaos_game.py:136-137 | the empty name has no extension and resolves to ".png" |
| `ChaosGame.LeadingDotNameSettles` | chaos_game.py:132-139 | the only '.' of ".png" is leading, so it has no extension and resolves to ".png.png"; that name has the extension ".png" and resolves to itself |
| `ChaosGame.JpegNameRefused` | test_chaos_game.py:48-51 | "test fig.jpeg" gives the NameError |
| `ChaosGame.BareNameGetsPng` | test_chaos_game.py:53-57 | "test fig" is written to "test fig.png" |
| `ChaosGame.PngNameKept` | test_chaos_game.py:59-63 | "test fig.png" is written to under its own name |
| `ChaosGame.UppercasePngRefused` | chaos_game.py:134 | the comparison with ".png" is case-sensitive, so "fig.PNG" gives the NameError |
| `Fern.AffineTransform.Matrix` | fern.py:12-30 | the matrix of `AffineTransform(a, b, c, d, e, f)` (every coefficient 0 by default) is 2-by-2, so `np.matmul` can apply it to a point |
| `Fern.AffineTransform.Constant` | fern.py:12-31 | the constant vector has length 2, so it can be added to the product |
| `Fern.Apply` | fern.py:30-48 | applying a transform is matrix times (x, y) plus the constant, which is (a*x + b*y + e, c*x + d*y + f) |
| `Fern.DefaultSendsToOrigin` | fern.py:12 | with every coefficient left at its default of 0, every point maps to the origin |
| `Fern.MapFormulas` | fern.py:57-62 | `functions` holds f1 to f4 in that order, with the source's coefficients: f1 maps (x, y) to (0, 0.16*y); f2 to (0.85*x + 0.04*y, -0.04*x + 0.85*y + 1.6); f3 to (0.2*x - 0.26*y, 0.23*x + 0.22*y + 1.6); f4 to (-0.15*x + 0.28*y, 0.26*x + 0.24*y + 0.44) |
| `Fern.TableWellFormed` | fern.py:62-63 | `functions` and `fp_cumulative` = [0.01, 0.86, 0.93, 1] have equal length; the thresholds increase strictly and end at 1 |
| `Fern.FirstAbove` | fern.py:79-81 | returns the first index whose threshold is above the draw, with every earlier threshold at or below it; returns None only when every threshold is at or below the draw |
| `Fern.SelectionInterval` | fern.py:78-81 | with increasing thresholds, index j is selected exactly when table[j-1] <= draw < table[j] |
| `Fern.ExactlyOneMap` | fern.py:78-81 | every draw in [0, 1) lies in the interval of exactly one map |
| `Fern.NextPoint` | fern.py:65-81 | yields a point exactly when the draw is below 1; a draw of 1 or more falls through to None |
| `Fern.NextPointUsesMap` | fern.py:78-81 | the map applied is the one whose interval holds the draw |
| `Fern.FernPoints` | fern.py:96-99 | the points number one more than the draws, and point 0 is the origin |
| `Fern.FernPointsSnoc` | fern.py:97-98 | one more draw appends to the rows the next point of the last row |
| `Fern.FernPointsStep` | fern.py:97-98 | point i+1 is the map selected by draw i applied to point i |
| `Fern.MapsKeepBox` | fern.py:57-60 | each of the four maps sends the box [-5, 5] x [-15, 15] into itself |
| `Fern.FernPointsInBox` | fern.py:96-99 | every point of the fern lies in the box [-5, 5] x [-15, 15] |
| `Fern.FernMaker` | fern.py:83-99 | `fern_maker(n)` returns exactly n points; for n > 0 they are FernPoints of the draws, and each lies in the box |

## Left out

- Plotting and output are not modelled: `plot`, `show`, `plt.savefig` (chaos_game.py:95-117, 141-142), the colour-map argument, and both `__main__` blocks. `savepng` is modelled only up to the file name it would write to.
- `_generate_ngon` is not modelled. Its corners are sines and cosines of floats, so the model takes the corners as an input sequence of n points.
- Random number generation is not modelled. Its outputs are inputs here: raw weights that are non-negative, one corner index in [0, n) per round, and fern draws in [0, 1).
- StartingPoint, ChaosGame.constructor, NewChaosGame, ChaosGame.PickStartingPoint: these require the raw weights to have a positive sum. If every draw is exactly 0, numpy divides by zero and the start value is NaN. The model does not cover that case.
- ChaosGame.Iterate: requires 0 < discard < steps. Outside that range the outcome depends on numpy: negative indices count from the end, and out-of-range indices raise. A negative `steps` makes `np.empty((steps, 2))` (chaos_game.py:66) raise a ValueError. With steps = 0 the write to `X[0]` raises an IndexError. `steps` is a `nat` here.
- FernMaker: `n` is a `nat`. A negative `n` makes `np.zeros((n, 2))` (fern.py:96) raise a ValueError, which the model does not represent.
- Validate: `r` is a `real`, which cannot be NaN. In the source `r = float('nan')` passes the range check at chaos_game.py:24, because both comparisons are false, and the object is built. The model does not cover that case.
- FernMaker: requires every draw to be below 1. In the source a draw of 1 or more would make `next_point` return None and store it into a float row. `np.random.random` never returns such a draw. `NextPoint` itself models the None.
- Float rounding is not modelled; all arithmetic is exact.
- Validate does not model a bool `n`, which Python counts as an int. It also does not model values of `n` that are not numbers.
- `__init__` assigns `self.n` and `self.r` before raising. The model keeps no half-built object, because the raising constructor returns none.
- The corner record holds the corner indices as integers. numpy stores them in a float array, and for these small indices the conversion is exact.
- `n`, `r` and the corners are `const` fields, because nothing in the class reassigns them.
- PosixPath.SplitExt models POSIX paths only. Windows alternative separators are not modelled.
- variations.py, triangle.py and chaos-game.py are not part of this model. variations.py plots transformations built from transcendental functions. triangle.py repeats the r = 0.5 chaos-game recurrence for a fixed triangle (triangle.py:41-44, 64-67), with a prefix burn-in `np.s_[0:5]` (triangle.py:46) and RGB colouring, so it adds nothing that `ChaosGame` does not already cover. chaos-game.py is an abandoned draft.
