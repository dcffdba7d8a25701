# Binned data sets and their n-sigma compatibility

This project models the `Data` class of a small C++ analysis exercise. A `Data`
object is a one-dimensional histogram. It holds N+1 bin edges, N bin contents
(measurements) and N bin errors (one standard deviation each). It is loaded from
a whitespace-separated text file (the count N, then the edges, then the contents,
then the errors) or built from three vectors. It must always satisfy the size
invariant checked by `assertSizes`. Its one analytical operation is
`checkCompatibility(other, n)`. This counts the bins where two data sets of equal
size differ by more than `n` combined standard deviations, the combined sigma
being `sqrt(e1*e1 + e2*e2)`.

Modules:

- `Histogram` (histogram.dfy, from Data.hh and `assertSizes` in Data.cc). The
  `Data` datatype holds three `seq<real>`. The `Valid` predicate is the size
  invariant. There are the vector constructor and the accessors `size`,
  `measurement`, `error`, `binLow`, `binHigh` and `binCenter`. The errors the
  source throws or asserts become `Fail` values of a `Result` type.
- `Loading` (loading.dfy, from the file constructor in Data.cc). `Parse` is the
  specification of reading a file. `Load` is the constructor's three counting
  loops, proved equal to `Parse`. `Serialize` writes the file layout and is
  proved to be the inverse of `Parse`.
- `Compatibility` (compatibility.dfy, from `checkCompatibility` in Data.cc).
  `Incompatible` is the per-bin test. `CountUpTo` is the recursive count. The
  method `CheckCompatibility` has the source's index loop, with an invariant tying
  `nIncompatible` to the count. The lemmas prove self-compatibility, symmetry,
  monotonicity in `n`, the bound by the size, and that the count is the number
  of bins passing the test.

Modelling decisions:

- The file is given as its numbers, already split on whitespace: `Opened(tokens)`.
  A file that cannot be opened is `Unopenable`. The bin count is the first
  number. It must be an integer, and N is that value.
- When the file has fewer numbers than its count announces, the C++ stream
  extraction leaves the variables unassigned and pushes indeterminate values.
  The model reports `Truncated` instead of inventing numbers. Numbers after the
  last error are ignored, as in the source.
- A negative count makes every reading loop run zero times. `assertSizes` then
  fails because there is no edge. The model reports `SizeInvariant`, and `Load`
  reaches that failure the way the source does. An empty file takes the same
  path: the failed extraction leaves the count at its initial value -1, nothing
  is read, and `assertSizes` fails, so it is `SizeInvariant` as well. The assertion is always checked
  here; the source's release-build behaviour (NDEBUG) is not modelled.
- `measurement(i)` and `error(i)` do no bounds check in the source. The model
  makes `0 <= i < size()` their precondition. It does not add a check that the
  source lacks.
- The comparison `diff > n * sqrt(e1*e1 + e2*e2)` is stated on squares:
  `diff*diff > n*n*(e1*e1 + e2*e2)`. The branch `sqrt(...) <= 0` becomes
  `e1*e1 + e2*e2 == 0`. `SquaredTestIsSigmaTest` proves that this is the
  source's test, for every non-negative sigma whose square is the combined
  variance.
- Values are mathematical reals, not IEEE doubles.

## Model

| member | source | states |
|---|---|---|
| `Histogram.AssertSizes` | Data.cc:49-52 | succeeds exactly when there is one more edge than contents and as many errors as contents; on success the data set is unchanged and valid; otherwise the error is the size-invariant failure |
| `Histogram.FromVectors` | Data.hh:13-18 | the vector constructor succeeds exactly when the sizes agree; its result stores the three given vectors unchanged and satisfies the invariant |
| `Histogram.Size` | Data.hh:24 | `size()` is the number of bin contents; for a valid data set there are `size()+1` edges and `size()` errors |
| `Histogram.BinLow` | Data.hh:32-36 | fails with out_of_range exactly when `i < 0` or `i >= size()`; otherwise it returns edge `i` |
| `Histogram.BinHigh` | Data.hh:38-42 | fails with out_of_range under the same condition as `binLow`; otherwise it returns edge `i+1` |
| `Histogram.BinHighIsNextBinLow` | Data.hh:32-42 | for `0 <= i < size()-1`, the upper edge of bin `i` is the lower edge of bin `i+1` |
| `Histogram.Measurement` | Data.hh:30 | `measurement(i)` returns the stored content of bin `i` unchanged, for an index in `[0, size())` (the source does no bounds check); `Loading.LoadedAccessors` ties it to its position in the file |
| `Histogram.Error` | Data.hh:53 | `error(i)` returns the stored error of bin `i` unchanged, for an index in `[0, size())` (the source does no bounds check); `Loading.LoadedAccessors` ties it to its position in the file |
| `Histogram.BinCenter` | Data.hh:44-46 | `binCenter(i)` fails with out_of_range exactly when `binLow(i)` or `binHigh(i)` fails; otherwise it is half the sum of `binLow(i)` and `binHigh(i)` |
| `Histogram.BinCenterWithinBin` | Data.hh:44-46 | when the two edges of a bin are in order, its centre lies between them |
| `Histogram.CopyAgrees` | run.cc:45-52 | the default member-wise copy is an equal value, so a copy answers `size`, `measurement`, `error`, `binLow` and `binHigh` as the original does; this holds by substitution of equals rather than by a separate proof |
| `Loading.Parse` | Data.cc:19-41 | a successful read gives a valid data set whose size is the first number of the file |
| `Loading.Load` | Data.cc:11-47 | the constructor's counting loops and final `assertSizes` return exactly what `Parse` specifies, failures included |
| `Loading.ParseSerialize` | Data.cc:19-41 | a valid data set written as count, edges, contents, errors, followed by any further numbers, reads back as itself |
| `Loading.ParseReadsInOrder` | Data.cc:19-41 | a successful read consumed a prefix of the file: the count, then N+1 edges, N contents and N errors, in exactly this order |
| `Loading.ParseFailures` | Data.cc:15-46 | an unopenable file fails as unavailable; an empty file leaves the count at -1 and fails the size invariant; a non-integral count is malformed; a negative count fails the size invariant; a non-negative count N succeeds exactly when at least 3N+2 numbers are present |
| `Loading.LoadedAccessors` | Data.hh:30-53 | after a successful read, `binLow(i)` is number `1+i` of the file, `binHigh(i)` is number `2+i`, `measurement(i)` is number `N+2+i` and `error(i)` is number `2N+2+i` |
| `Loading.SingleBinFile` | run.cc:20-43 | the file `1 0 1 10 2` loads to one bin with edges 0 and 1, measurement 10 and error 2 |
| `Compatibility.Abs` | Data.cc:70 | `std::fabs`: the result is non-negative and is either `x` or `-x` |
| `Compatibility.SigmaTest` | Data.cc:73-78 | the source's test on a computed sigma: with sigma at most 0 it holds exactly when the difference is positive; with `n > 0` and sigma non-negative it can hold only for a positive difference |
| `Compatibility.Incompatible` | Data.cc:70-78 | the per-bin test on squares; a bin can disagree only when its two measurements differ; `SquaredTestIsSigmaTest` proves it equals `SigmaTest` on the square root |
| `Compatibility.CountUpTo` | Data.cc:62-81 | the number of disagreeing bins among the first `k` is at most `k` |
| `Compatibility.CheckCompatibilitySpec` | Data.cc:54-82 | different sizes fail with a size mismatch, checked first; a non-positive `n` fails next; otherwise the call succeeds with a result between 0 and `size()` |
| `Compatibility.CheckCompatibility` | Data.cc:54-82 | the guard-then-loop implementation returns exactly `CheckCompatibilitySpec`; its loop invariant says `nIncompatible` counts the disagreeing bins seen so far |
| `Compatibility.SquaredTestIsSigmaTest` | Data.cc:70-78 | for any `sigma >= 0` with `sigma*sigma == e1*e1 + e2*e2` and `n > 0`, the squared test agrees with the source's test on `sigma` |
| `Compatibility.ExactBin` | Data.cc:73-75 | a bin with zero combined uncertainty disagrees exactly when its two measurements differ, whatever `n` is |
| `Compatibility.BoundaryIsCompatible` | Data.cc:76 | a difference of exactly `n` sigmas counts as compatible, because the comparison is strict |
| `Compatibility.CountIsNumberOfBins` | Data.cc:62-81 | the count over the first `k` bins is the cardinality of the set of bins among them that fail the test |
| `Compatibility.CheckCompatibilityCountsBins` | Data.cc:54-82 | for equal sizes and `n > 0`, the result is the number of bins that fail the test |
| `Compatibility.SelfCountIsZero` | Data.cc:62-81 | a data set has no disagreeing bin against itself among any first `k` bins |
| `Compatibility.SelfCompatible` | Data.cc:54-82 | `a.checkCompatibility(a, n) == 0` for every `n > 0` |
| `Compatibility.CountSymmetric` | Data.cc:62-81 | the count over the first `k` bins does not depend on which data set comes first |
| `Compatibility.Symmetric` | Data.cc:54-82 | `a.checkCompatibility(b, n)` and `b.checkCompatibility(a, n)` give the same result, failures included |
| `Compatibility.IncompatibleAntitone` | Data.cc:74-78 | a bin that disagrees at threshold `m` also disagrees at every threshold `0 < n <= m` |
| `Compatibility.CountAntitone` | Data.cc:62-81 | raising the threshold never raises the count over the first `k` bins |
| `Compatibility.Antitone` | Data.cc:54-82 | for `0 < n <= m`, the count at `m` is at most the count at `n` |
| `Compatibility.SingleBinDisagreement` | Data.cc:54-82 | a bin of 10 ± 2 against 16 ± 2 disagrees at `n = 2` (6 > 2·sqrt 8) and agrees at `n = 3` |

## Left out

- Opening and closing the file through `ifstream` (Data.cc:12, 44). The model receives the file's numbers; the open failure is the `Unopenable` case.
- Tokenising the text. The stream would read a count written as `2.5` as `2` and then `.5` as the first edge; the model rejects a non-integral count as `MalformedCount`.
- `averageWith` and `operator+` (Data.hh:19-21, 56). `operator+` is defined inline as `averageWith(other, 2)`, but `averageWith` is only declared at Data.hh:56 and has no definition in Data.cc, so there is no weighting formula to check a model against.
- The private default constructor (Data.hh:60), which exists only to be unusable.
- `run.cc`, the test runner and the driver program that prints results (console output). Its tests appear as the worked examples `SingleBinFile` and `CopyAgrees`.
- IEEE double rounding, NaN, infinities, underflow of `e*e` to zero, and `std::sqrt` itself: values are reals and the test is compared on squares.
- C++ integer widths: the index `int i`, the `unsigned int` returned by `size()` and the `int` counter are unbounded integers here; no data set reachable in memory makes a difference.
- The debug-only nature of `assert` in `assertSizes`: the model always checks it.
