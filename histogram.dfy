/**
 The binned data set of Data.hh: bin edges, bin contents and bin errors,
 with the size invariant of assertSizes (Data.cc) and the per-bin accessors.
 A Data value is never changed after construction, so it is a datatype.
 */
module Histogram {

  /** The failures the C++ code reports by exception or by a failed assertion. */
  datatype DataError =
    | OutOfRange         // std::out_of_range from binLow / binHigh
    | SizeInvariant      // the assertions of assertSizes
    | SourceUnavailable  // the file could not be opened
    | Truncated          // the file holds fewer numbers than its count announces
    | MalformedCount     // the first number of the file is not an integer
    | SizeMismatch       // checkCompatibility on data sets of different sizes
    | NonPositiveSigma   // checkCompatibility with n <= 0

  datatype Result<T> = Ok(value: T) | Fail(error: DataError)

  /** m_bins (size()+1 edges), m_data (size() contents), m_errors (size() errors). */
  datatype Data = Data(bins: seq<real>, contents: seq<real>, errors: seq<real>)

  /** The invariant that assertSizes checks on every construction path. */
  predicate Valid(d: Data)
  {
    |d.contents| + 1 == |d.bins| && |d.errors| == |d.contents|
  }

  /** assertSizes: the object survives construction only if its sizes agree. */
  function AssertSizes(d: Data): (r: Result<Data>)
    ensures r.Ok? <==> |d.bins| == |d.contents| + 1 && |d.errors| == |d.contents|
    ensures r.Ok? ==> r.value == d && Valid(r.value)
    ensures r.Fail? ==> r.error == SizeInvariant
  {
    if Valid(d) then Ok(d) else Fail(SizeInvariant)
  }

  /** The constructor from three vectors: copy the arguments, then assertSizes. */
  function FromVectors(bins: seq<real>, contents: seq<real>, errors: seq<real>): (r: Result<Data>)
    ensures r.Ok? <==> |bins| == |contents| + 1 && |errors| == |contents|
    ensures r.Ok? ==> Valid(r.value)
    ensures r.Ok? ==> r.value.bins == bins && r.value.contents == contents && r.value.errors == errors
    ensures r.Fail? ==> r.error == SizeInvariant
  {
    AssertSizes(Data(bins, contents, errors))
  }

  /** size(): the number of bins, which for a valid data set fixes the other two lengths. */
  function Size(d: Data): (n: nat)
    ensures n == |d.contents|
    ensures Valid(d) ==> |d.bins| == n + 1 && |d.errors| == n
  {
    |d.contents|
  }

  /** measurement(i): the stored content of bin i; no bounds check in the source, so the index is a precondition. */
  function Measurement(d: Data, i: int): (y: real)
    requires Valid(d) && 0 <= i < Size(d)
    ensures y == d.contents[i]
  {
    d.contents[i]
  }

  /** error(i): the stored error of bin i; no bounds check in the source, so the index is a precondition. */
  function Error(d: Data, i: int): (e: real)
    requires Valid(d) && 0 <= i < Size(d)
    ensures e == d.errors[i]
  {
    d.errors[i]
  }

  /** binLow(i): the lower edge of bin i, or out_of_range outside [0, size()). */
  function BinLow(d: Data, i: int): (r: Result<real>)
    requires Valid(d)
    ensures r.Fail? <==> i < 0 || i >= Size(d)
    ensures r.Fail? ==> r.error == OutOfRange
    ensures r.Ok? ==> r.value == d.bins[i]
  {
    if i < 0 || i >= |d.contents| then Fail(OutOfRange) else Ok(d.bins[i])
  }

  /** binHigh(i): the upper edge of bin i, or out_of_range outside [0, size()). */
  function BinHigh(d: Data, i: int): (r: Result<real>)
    requires Valid(d)
    ensures r.Fail? <==> i < 0 || i >= Size(d)
    ensures r.Fail? ==> r.error == OutOfRange
    ensures r.Ok? ==> r.value == d.bins[i + 1]
  {
    if i < 0 || i >= |d.contents| then Fail(OutOfRange) else Ok(d.bins[i + 1])
  }

  /** binCenter(i): the midpoint of the bin; it fails exactly where binLow and binHigh fail. */
  function BinCenter(d: Data, i: int): (r: Result<real>)
    requires Valid(d)
    ensures r.Fail? <==> BinLow(d, i).Fail? || BinHigh(d, i).Fail?
    ensures r.Fail? ==> r.error == OutOfRange
    ensures r.Ok? ==> r.value == 0.5 * (BinLow(d, i).value + BinHigh(d, i).value)
  {
    var low := BinLow(d, i);
    var high := BinHigh(d, i);
    if low.Fail? then low
    else if high.Fail? then high
    else Ok(0.5 * (low.value + high.value))
  }

  /** Adjacent bins share an edge: the upper edge of bin i is the lower edge of bin i+1. */
  lemma BinHighIsNextBinLow(d: Data, i: int)
    requires Valid(d) && 0 <= i < Size(d) - 1
    ensures BinHigh(d, i) == BinLow(d, i + 1)
  {
  }

  /** For a bin whose edges are in order, its centre lies between them. */
  lemma BinCenterWithinBin(d: Data, i: int)
    requires Valid(d) && 0 <= i < Size(d) && d.bins[i] <= d.bins[i + 1]
    ensures BinLow(d, i).value <= BinCenter(d, i).value <= BinHigh(d, i).value
  {
  }

  /**
   The C++ copy constructor is the default member-wise copy, so a copy of a
   data set is the equal value; every accessor then agrees by substitution of
   equals. This lemma records that reading, not a separate proof obligation.
   */
  lemma CopyAgrees(d: Data, c: Data, i: int)
    requires Valid(d) && c == d
    ensures Size(c) == Size(d)
    ensures 0 <= i < Size(d) ==> Measurement(c, i) == Measurement(d, i) && Error(c, i) == Error(d, i)
    ensures BinLow(c, i) == BinLow(d, i) && BinHigh(c, i) == BinHigh(d, i)
  {
  }
}
