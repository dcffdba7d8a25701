/**
 The file constructor of Data.cc. The file is given already split into its
 whitespace-separated numbers; a file that cannot be opened is its own case.
 */
module Loading {
  import opened Histogram

  datatype Source = Unopenable | Opened(tokens: seq<real>)

  predicate IsInteger(x: real)
  {
    x == x.Floor as real
  }

  /**
   What reading the file yields: token 0 is the bin count N, then N+1 edges,
   N contents and N errors, in this order; numbers after them are ignored.
   An empty file leaves the count at its initial -1, so nothing is read and
   assertSizes fails, as for any negative count.
   */
  function Parse(src: Source): (r: Result<Data>)
    ensures r.Ok? ==> Valid(r.value) && src.Opened? && |src.tokens| > 0 && Size(r.value) == src.tokens[0].Floor
  {
    match src
    case Unopenable => Fail(SourceUnavailable)
    case Opened(tokens) =>
      if |tokens| == 0 then Fail(SizeInvariant)
      else if !IsInteger(tokens[0]) then Fail(MalformedCount)
      else
        var n := tokens[0].Floor;
        if n < 0 then Fail(SizeInvariant)
        else if |tokens| < 3 * n + 2 then Fail(Truncated)
        else Ok(Data(tokens[1..n + 2], tokens[n + 2..2 * n + 2], tokens[2 * n + 2..3 * n + 2]))
  }

  /** The file layout of a data set: the inverse of Parse. */
  function Serialize(d: Data): (t: seq<real>)
    ensures Valid(d) ==> |t| == 3 * Size(d) + 2
    ensures |t| > 0 && t[0] == Size(d) as real
  {
    [|d.contents| as real] + d.bins + d.contents + d.errors
  }

  /**
   Data(const std::string&): read the count, then three counting loops that
   push edges, contents and errors, then assertSizes.
   */
  method Load(src: Source) returns (r: Result<Data>)
    ensures r == Parse(src)
  {
    if src.Unopenable? {
      return Fail(SourceUnavailable);
    }
    var tokens := src.tokens;
    if |tokens| == 0 {
      // int size = -1; the extraction fails and leaves it at -1: no loop runs
      return AssertSizes(Data([], [], []));
    }
    if !IsInteger(tokens[0]) {
      return Fail(MalformedCount);
    }
    var size := tokens[0].Floor;
    var pos := 1;

    var bins: seq<real> := [];
    var i := 0;
    while i < size + 1
      invariant 0 <= i && (size >= 0 ==> i <= size + 1)
      invariant size < 0 ==> i == 0
      invariant pos == 1 + i <= |tokens|
      invariant bins == tokens[1..pos]
    {
      if pos >= |tokens| {
        return Fail(Truncated);
      }
      bins := bins + [tokens[pos]];
      pos := pos + 1;
      i := i + 1;
    }

    var contents: seq<real> := [];
    i := 0;
    while i < size
      invariant 0 <= i && (size >= 0 ==> i <= size)
      invariant size < 0 ==> i == 0 && pos == 1
      invariant size >= 0 ==> pos == size + 2 + i <= |tokens|
      invariant size >= 0 ==> contents == tokens[size + 2..pos]
      invariant size < 0 ==> contents == []
      invariant size >= 0 ==> bins == tokens[1..size + 2]
      invariant size < 0 ==> bins == []
    {
      if pos >= |tokens| {
        return Fail(Truncated);
      }
      contents := contents + [tokens[pos]];
      pos := pos + 1;
      i := i + 1;
    }

    var errors: seq<real> := [];
    i := 0;
    while i < size
      invariant 0 <= i && (size >= 0 ==> i <= size)
      invariant size < 0 ==> i == 0 && pos == 1
      invariant size >= 0 ==> pos == 2 * size + 2 + i <= |tokens|
      invariant size >= 0 ==> errors == tokens[2 * size + 2..pos]
      invariant size < 0 ==> errors == [] && contents == [] && bins == []
      invariant size >= 0 ==> bins == tokens[1..size + 2]
      invariant size >= 0 ==> contents == tokens[size + 2..2 * size + 2]
    {
      if pos >= |tokens| {
        return Fail(Truncated);
      }
      errors := errors + [tokens[pos]];
      pos := pos + 1;
      i := i + 1;
    }

    r := AssertSizes(Data(bins, contents, errors));
  }

  /** Every valid data set, written out and followed by anything, reads back unchanged. */
  lemma ParseSerialize(d: Data, rest: seq<real>)
    requires Valid(d)
    ensures Parse(Opened(Serialize(d) + rest)) == Ok(d)
  {
    var n := |d.contents|;
    var t := Serialize(d) + rest;
    assert t[0] == n as real;
    assert (n as real).Floor == n;
    assert t[1..n + 2] == d.bins;
    assert t[n + 2..2 * n + 2] == d.contents;
    assert t[2 * n + 2..3 * n + 2] == d.errors;
  }

  /** A successful load consumed a prefix of the file laid out exactly as Serialize lays it out. */
  lemma ParseReadsInOrder(tokens: seq<real>)
    requires Parse(Opened(tokens)).Ok?
    ensures var d := Parse(Opened(tokens)).value;
      |Serialize(d)| <= |tokens| && tokens[..|Serialize(d)|] == Serialize(d)
  {
    var d := Parse(Opened(tokens)).value;
    var n := tokens[0].Floor;
    assert |Serialize(d)| == 3 * n + 2;
    var p := tokens[..3 * n + 2];
    assert p == [tokens[0]] + tokens[1..n + 2] + tokens[n + 2..2 * n + 2] + tokens[2 * n + 2..3 * n + 2];
  }

  /** Exactly when reading fails, and with which error. */
  lemma ParseFailures(tokens: seq<real>)
    ensures Parse(Unopenable) == Fail(SourceUnavailable)
    ensures |tokens| == 0 ==> Parse(Opened(tokens)) == Fail(SizeInvariant)
    ensures |tokens| > 0 && !IsInteger(tokens[0]) ==> Parse(Opened(tokens)) == Fail(MalformedCount)
    ensures |tokens| > 0 && IsInteger(tokens[0]) && tokens[0] < 0.0 ==>
      Parse(Opened(tokens)) == Fail(SizeInvariant)
    ensures |tokens| > 0 && IsInteger(tokens[0]) && tokens[0] >= 0.0 ==>
      (Parse(Opened(tokens)).Ok? <==> |tokens| >= 3 * tokens[0].Floor + 2)
  {
  }

  /** The accessors of a loaded data set return the numbers at their places in the file. */
  lemma LoadedAccessors(tokens: seq<real>, i: int)
    requires Parse(Opened(tokens)).Ok?
    requires 0 <= i < Size(Parse(Opened(tokens)).value)
    ensures var d := Parse(Opened(tokens)).value; var n := Size(d);
      BinLow(d, i) == Ok(tokens[1 + i]) && BinHigh(d, i) == Ok(tokens[2 + i]) &&
      Measurement(d, i) == tokens[n + 2 + i] && Error(d, i) == tokens[2 * n + 2 + i]
  {
  }

  /** The file "1 0 1 10 2" used by the source's tests: one bin [0, 1] holding 10 with error 2. */
  lemma SingleBinFile()
    ensures Parse(Opened([1.0, 0.0, 1.0, 10.0, 2.0])).Ok?
    ensures var d := Parse(Opened([1.0, 0.0, 1.0, 10.0, 2.0])).value;
      Size(d) == 1 && Measurement(d, 0) == 10.0 && Error(d, 0) == 2.0 &&
      BinLow(d, 0) == Ok(0.0) && BinHigh(d, 0) == Ok(1.0)
  {
    var t := [1.0, 0.0, 1.0, 10.0, 2.0];
    assert IsInteger(t[0]) && t[0].Floor == 1;
    assert t[1..3] == [0.0, 1.0];
  }
}
