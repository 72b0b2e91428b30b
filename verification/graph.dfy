/**
  The data-entry side of the graph plotter: parsing comma-separated numbers,
  reading series from a CSV table, checking that every y series matches the
  x series, and the truncation and colour choice applied before drawing.
  Python's `float()` is the partial function `toFloat`, and a parsed CSV
  table is given as its columns.
 */
module Graph {
  import opened Common
  import opened PyText

  const EmptyInputMessage := "Input cannot be empty."
  const InvalidInputMessage := "Invalid input. Please enter numeric values separated by commas."
  const CsvPrefix := "Error reading CSV file: "
  const MissingXMessage := "CSV file must contain an 'x' column."
  const CsvLengthMessage := "All columns in CSV must have the same length as 'x'."
  const MismatchMessage := "Error: Each y dataset must have the same number of values as x."
  const NoDatasetMessage := "Error: At least one dataset is required."

  /** At most this many points are drawn. */
  const MaxPoints := 10000

  /** The series colours, used in turn. */
  const Colors: seq<string> := ["white", "red", "blue", "green", "yellow"]

  // ---------------------------------------------------------------------------
  // parse_input

  /** A field that `strip()` empties: whitespace only (see `StripEmptyIffBlank`). */
  predicate Blank(s: string)
  {
    forall i :: 0 <= i < |s| ==> IsSpace(s[i])
  }

  /** The comma-separated fields that are not blank, in order. */
  function NonBlank(parts: seq<string>): (r: seq<string>)
    ensures |r| <= |parts|
    ensures forall k :: 0 <= k < |r| ==> !Blank(r[k]) && Strip(r[k]) != []
    ensures forall p :: p in r <==> p in parts && !Blank(p)
  {
    if parts == [] then []
    else if !Blank(parts[0]) then
      StripEmptyIffBlank(parts[0]);
      [parts[0]] + NonBlank(parts[1..])
    else NonBlank(parts[1..])
  }

  /** Filtering works field by field, so the kept fields stay in input order. */
  lemma {:induction false} NonBlankAppend(a: seq<string>, b: seq<string>)
    ensures NonBlank(a + b) == NonBlank(a) + NonBlank(b)
  {
    if a == [] {
      assert a + b == b;
    } else {
      assert (a + b)[0] == a[0];
      assert (a + b)[1..] == a[1..] + b;
      NonBlankAppend(a[1..], b);
    }
  }

  /** `float()` applied to every field: None as soon as one is rejected. */
  function ParseAll(fields: seq<string>, toFloat: string -> Option<real>): (r: Option<seq<real>>)
    ensures r.None? <==> exists k :: 0 <= k < |fields| && toFloat(fields[k]).None?
    ensures r.Some? ==> |r.value| == |fields| && forall k :: 0 <= k < |fields| ==> Some(r.value[k]) == toFloat(fields[k])
  {
    if fields == [] then Some([])
    else match (toFloat(fields[0]), ParseAll(fields[1..], toFloat))
      case (Some(v), Some(vs)) => Some([v] + vs)
      case (None, _) => None
      case (_, None) => assert forall k :: 0 < k < |fields| ==> fields[k] == fields[1..][k - 1]; None
  }

  /** `parse_input`: the numbers of the non-blank fields, or the error it raises. */
  function ParseInput(input: string, toFloat: string -> Option<real>): (r: Result<seq<real>, string>)
    ensures input == [] <==> r == Err(EmptyInputMessage)
    ensures r.Err? ==> r.error in {EmptyInputMessage, InvalidInputMessage}
    ensures input != [] ==>
      (r.Err? <==> exists k :: 0 <= k < |NonBlank(SplitOn(input, ','))| && toFloat(NonBlank(SplitOn(input, ','))[k]).None?)
    ensures r.Ok? ==>
      && |r.value| == |NonBlank(SplitOn(input, ','))|
      && forall k :: 0 <= k < |r.value| ==> Some(r.value[k]) == toFloat(NonBlank(SplitOn(input, ','))[k])
  {
    if input == [] then Err(EmptyInputMessage)
    else match ParseAll(NonBlank(SplitOn(input, ',')), toFloat)
      case None => Err(InvalidInputMessage)
      case Some(vs) => Ok(vs)
  }

  /** Empty fields are skipped: "1,,2," holds two fields. */
  lemma BlankFieldsDropped()
    ensures NonBlank(SplitOn("1,,2,", ',')) == ["1", "2"]
  {
    assert SplitOn("", ',') == [""];
    assert SplitOn(",", ',') == ["", ""] by { assert ","[1..] == ""; }
    assert SplitOn("2,", ',') == ["2", ""] by {
      assert "2,"[1..] == ",";
      assert ['2'] + "" == "2";
    }
    assert SplitOn(",2,", ',') == ["", "2", ""] by { assert ",2,"[1..] == "2,"; }
    assert SplitOn(",,2,", ',') == ["", "", "2", ""] by { assert ",,2,"[1..] == ",2,"; }
    assert SplitOn("1,,2,", ',') == ["1", "", "2", ""] by {
      assert "1,,2,"[1..] == ",,2,";
      assert ['1'] + "" == "1";
      assert ["", "", "2", ""][1..] == ["", "2", ""];
    }
    assert !Blank("1") && !Blank("2") by { assert "1"[0] == '1' && "2"[0] == '2'; }
    assert Blank("");
  }

  /** A character of a piece is a character of the joined string. */
  lemma {:induction false} JoinHas(parts: seq<string>, sep: string, k: nat, c: char)
    requires k < |parts| && c in parts[k]
    ensures c in Join(parts, sep)
  {
    if |parts| > 1 && k > 0 {
      JoinHas(parts[1..], sep, k - 1, c);
    }
  }

  /** Input made only of whitespace and commas parses to no numbers at all. */
  lemma BlankInputParsesEmpty(input: string, toFloat: string -> Option<real>)
    requires input != []
    requires forall i :: 0 <= i < |input| ==> IsSpace(input[i]) || input[i] == ','
    ensures ParseInput(input, toFloat) == Ok([])
  {
    var parts := SplitOn(input, ',');
    JoinSplitOn(input, ',');
    forall p | p in parts
      ensures Blank(p)
    {
      var k :| 0 <= k < |parts| && parts[k] == p;
      forall i | 0 <= i < |p|
        ensures IsSpace(p[i])
      {
        JoinHas(parts, [','], k, p[i]);
        assert p[i] != ',';
      }
    }
    AllBlankDropped(parts);
  }

  lemma {:induction false} AllBlankDropped(parts: seq<string>)
    requires forall p :: p in parts ==> Blank(p)
    ensures NonBlank(parts) == []
  {
    if parts != [] {
      AllBlankDropped(parts[1..]);
    }
  }

  // ---------------------------------------------------------------------------
  // read_csv_data

  datatype Column = Column(name: string, values: seq<real>)

  /** The values of the first column named "x". */
  function XColumn(columns: seq<Column>): (r: Option<seq<real>>)
    ensures r.None? <==> forall k :: 0 <= k < |columns| ==> columns[k].name != "x"
    ensures r.Some? ==> exists k :: 0 <= k < |columns| && columns[k].name == "x" && columns[k].values == r.value
  {
    if columns == [] then None
    else if columns[0].name == "x" then Some(columns[0].values)
    else
      var r := XColumn(columns[1..]);
      assert forall k :: 0 < k < |columns| ==> columns[k] == columns[1..][k - 1];
      r
  }

  /** The values of every column not named "x", in column order. */
  function YColumns(columns: seq<Column>): (ys: seq<seq<real>>)
    ensures |ys| <= |columns|
    ensures forall y :: y in ys <==> exists c :: c in columns && c.name != "x" && c.values == y
  {
    if columns == [] then []
    else if columns[0].name != "x" then [columns[0].values] + YColumns(columns[1..])
    else YColumns(columns[1..])
  }

  /** The y series follow the column order: the series of a split table are
      those of its first part followed by those of its second. */
  lemma {:induction false} YColumnsAppend(a: seq<Column>, b: seq<Column>)
    ensures YColumns(a + b) == YColumns(a) + YColumns(b)
  {
    if a == [] {
      assert a + b == b;
    } else {
      assert (a + b)[0] == a[0];
      assert (a + b)[1..] == a[1..] + b;
      YColumnsAppend(a[1..], b);
    }
  }

  /** `read_csv_data`: `table` is what `pd.read_csv` returned or raised. */
  function ReadCsvData(table: Result<seq<Column>, string>): (r: Result<(seq<real>, seq<seq<real>>), string>)
    ensures table.Err? ==> r == Err(CsvPrefix + table.error)
    ensures table.Ok? && XColumn(table.value).None? ==> r == Err(CsvPrefix + MissingXMessage)
    ensures r.Ok? ==>
      && table.Ok? && XColumn(table.value) == Some(r.value.0)
      && r.value.1 == YColumns(table.value)
      && forall k :: 0 <= k < |r.value.1| ==> |r.value.1[k]| == |r.value.0|
    ensures table.Ok? && XColumn(table.value).Some? && r.Err? ==>
      r == Err(CsvPrefix + CsvLengthMessage) &&
      exists k :: 0 <= k < |YColumns(table.value)| && |YColumns(table.value)[k]| != |XColumn(table.value).value|
  {
    match table
    case Err(e) => Err(CsvPrefix + e)
    case Ok(columns) =>
      match XColumn(columns)
      case None => Err(CsvPrefix + MissingXMessage)
      case Some(x) =>
        var ys := YColumns(columns);
        if exists k :: 0 <= k < |ys| && |ys[k]| != |x| then Err(CsvPrefix + CsvLengthMessage)
        else Ok((x, ys))
  }

  // ---------------------------------------------------------------------------
  // plot_graph

  /** The first 10000 points of x and of every y series when x is longer. */
  function TruncateSeries(x: seq<real>, ys: seq<seq<real>>): (r: (seq<real>, seq<seq<real>>))
    ensures |x| <= MaxPoints ==> r == (x, ys)
    ensures |x| > MaxPoints ==>
      && r.0 == x[..MaxPoints]
      && |r.1| == |ys|
      && forall k :: 0 <= k < |ys| ==> r.1[k] == Prefix(ys[k], MaxPoints)
    ensures |r.0| == Min(|x|, MaxPoints)
  {
    if |x| > MaxPoints then (x[..MaxPoints], seq(|ys|, k requires 0 <= k < |ys| => Prefix(ys[k], MaxPoints)))
    else (x, ys)
  }

  /** Series of equal length stay of equal length after truncation. */
  lemma TruncateKeepsLengths(x: seq<real>, ys: seq<seq<real>>)
    requires forall k :: 0 <= k < |ys| ==> |ys[k]| == |x|
    ensures var (x', ys') := TruncateSeries(x, ys);
      |ys'| == |ys| && forall k :: 0 <= k < |ys'| ==> |ys'[k]| == |x'| == Min(|x|, MaxPoints)
  {
  }

  /** The colour of series i cycles through the five colours. */
  function SeriesColor(i: nat): (c: string)
    ensures c in Colors
    ensures c == Colors[i % |Colors|]
  {
    Colors[i % 5]
  }

  lemma SeriesColorPeriodic(i: nat)
    ensures SeriesColor(i + 5) == SeriesColor(i)
    ensures i < 5 ==> SeriesColor(i) == Colors[i]
  {
    assert (i + 5) % 5 == i % 5;
  }

  datatype PlotKind = Line | Scatter | Bar

  /** The plot drawn for a `--plot-type` value; any other value draws lines. */
  function ChoosePlot(plotType: string): (k: PlotKind)
    ensures k == Scatter <==> Lower(plotType) == "scatter"
    ensures k == Bar <==> Lower(plotType) == "bar"
    ensures k == Line <==> Lower(plotType) != "scatter" && Lower(plotType) != "bar"
  {
    var t := Lower(plotType);
    if t == "line" then Line
    else if t == "scatter" then Scatter
    else if t == "bar" then Bar
    else Line
  }

  // ---------------------------------------------------------------------------
  // main: validating the datasets

  /** How `main` ends before plotting: the data to plot, an error message
      printed, or input running out (an EOFError, which the ValueError handler
      does not catch). */
  datatype Entry = Plot(x: seq<real>, ys: seq<seq<real>>) | Abort(message: string) | EndOfInput

  /** The command-line path: every `--y` must parse and match the length of x.
      The script takes this path only when `--x` and `--y` are both given and
      non-empty; for an empty `--x` or no `--y` it runs the interactive loop
      instead, so the results here for those inputs are never produced. */
  function ArgumentEntry(xArg: string, yArgs: seq<string>, toFloat: string -> Option<real>): (r: Entry)
    ensures r.Plot? ==> |r.ys| == |yArgs| && forall k :: 0 <= k < |r.ys| ==> |r.ys[k]| == |r.x|
    ensures r.Plot? ==> ParseInput(xArg, toFloat) == Ok(r.x)
    ensures ParseInput(xArg, toFloat).Err? ==> r == Abort("Error: " + ParseInput(xArg, toFloat).error)
    ensures ParseInput(xArg, toFloat).Ok? && ParseEach(yArgs, toFloat).Err? ==>
      r == Abort("Error: " + ParseEach(yArgs, toFloat).error)
    ensures ParseInput(xArg, toFloat).Ok? && ParseEach(yArgs, toFloat).Ok? ==>
      var x, ys := ParseInput(xArg, toFloat).value, ParseEach(yArgs, toFloat).value;
      r == if forall k :: 0 <= k < |ys| ==> |ys[k]| == |x| then Plot(x, ys) else Abort(MismatchMessage)
  {
    match ParseInput(xArg, toFloat)
    case Err(e) => Abort("Error: " + e)
    case Ok(x) =>
      match ParseEach(yArgs, toFloat)
      case Err(e) => Abort("Error: " + e)
      case Ok(ys) =>
        if exists k :: 0 <= k < |ys| && |ys[k]| != |x| then Abort(MismatchMessage)
        else Plot(x, ys)
  }

  /** `[parse_input(y) for y in args.y]`: the first error raised, or every series. */
  function ParseEach(args: seq<string>, toFloat: string -> Option<real>): (r: Result<seq<seq<real>>, string>)
    ensures r.Ok? ==> |r.value| == |args| && forall k :: 0 <= k < |args| ==> ParseInput(args[k], toFloat) == Ok(r.value[k])
    ensures r.Err? ==>
      (exists k :: 0 <= k < |args| && ParseInput(args[k], toFloat) == Err(r.error) &&
        forall j :: 0 <= j < k ==> ParseInput(args[j], toFloat).Ok?)
  {
    if args == [] then Ok([])
    else match (ParseInput(args[0], toFloat), ParseEach(args[1..], toFloat))
      case (Err(e), _) => Err(e)
      case (_, Err(e)) => Err(e)
      case (Ok(y), Ok(ys)) => Ok([y] + ys)
  }

  /** What one interactive line does: end the entry, or leave the datasets
      collected so far (one more when the line held a matching dataset). */
  datatype Step = Finish(entry: Entry) | Continue(ys: seq<seq<real>>)

  /** One stripped line of the interactive loop: "done" (in any case), a
      dataset of the right length (kept), one of the wrong length (refused,
      prompting again) or an error raised by `parse_input`. */
  function Accept(x: seq<real>, ys: seq<seq<real>>, line: string, toFloat: string -> Option<real>): (r: Step)
    ensures Lower(line) == "done" ==> r == Finish(if ys == [] then Abort(NoDatasetMessage) else Plot(x, ys))
    ensures r.Continue? ==> r.ys == ys || (|r.ys| == |ys| + 1 && r.ys == ys + [r.ys[|ys|]] && |r.ys[|ys|]| == |x|)
    ensures r.Continue? && r.ys != ys ==> |r.ys| == |ys| + 1 && ParseInput(line, toFloat) == Ok(r.ys[|ys|])
    ensures r.Finish? && r.entry.Plot? ==> r.entry == Plot(x, ys) && ys != []
    ensures Lower(line) != "done" && ParseInput(line, toFloat).Err? ==>
      r == Finish(Abort("Error: " + ParseInput(line, toFloat).error))
    ensures Lower(line) != "done" && ParseInput(line, toFloat).Ok? ==>
      var y := ParseInput(line, toFloat).value;
      r == Continue(if |y| == |x| then ys + [y] else ys)
  {
    if Lower(line) == "done" then Finish(if ys == [] then Abort(NoDatasetMessage) else Plot(x, ys))
    else match ParseInput(line, toFloat)
      case Err(e) => Finish(Abort("Error: " + e))
      case Ok(y) => if |y| != |x| then Continue(ys) else Continue(ys + [y])
  }

  /** The interactive loop after x has been read, over the remaining input lines. */
  function Interactive(x: seq<real>, ys: seq<seq<real>>, lines: seq<string>, toFloat: string -> Option<real>): Entry
    decreases |lines|
  {
    if lines == [] then EndOfInput
    else match Accept(x, ys, Strip(lines[0]), toFloat)
      case Finish(e) => e
      case Continue(ys') => Interactive(x, ys', lines[1..], toFloat)
  }

  /** The datasets accepted interactively all match x, and there is at least one. */
  lemma {:induction false} InteractiveAccepted(x: seq<real>, ys: seq<seq<real>>, lines: seq<string>, toFloat: string -> Option<real>)
    requires forall k :: 0 <= k < |ys| ==> |ys[k]| == |x|
    ensures var r := Interactive(x, ys, lines, toFloat);
      r.Plot? ==> r.x == x && r.ys != [] && ys <= r.ys && forall k :: 0 <= k < |r.ys| ==> |r.ys[k]| == |x|
    decreases |lines|
  {
    if lines != [] {
      var step := Accept(x, ys, Strip(lines[0]), toFloat);
      if step.Continue? {
        assert forall k :: 0 <= k < |step.ys| ==> |step.ys[k]| == |x|;
        InteractiveAccepted(x, step.ys, lines[1..], toFloat);
      }
    }
  }

  lemma InteractiveStep(x: seq<real>, ys: seq<seq<real>>, lines: seq<string>, i: int, toFloat: string -> Option<real>)
    requires 0 <= i < |lines|
    ensures Interactive(x, ys, lines[i..], toFloat) ==
      match Accept(x, ys, Strip(lines[i]), toFloat)
      case Finish(e) => e
      case Continue(ys') => Interactive(x, ys', lines[i + 1..], toFloat)
  {
    assert lines[i..][1..] == lines[i + 1..];
  }

  /** The interactive path of `main`: read x from the first line, then
      datasets until "done". */
  method InteractiveEntry(xLine: string, lines: seq<string>, toFloat: string -> Option<real>) returns (r: Entry)
    ensures ParseInput(Strip(xLine), toFloat).Err? ==> r == Abort("Error: " + ParseInput(Strip(xLine), toFloat).error)
    ensures ParseInput(Strip(xLine), toFloat).Ok? ==> r == Interactive(ParseInput(Strip(xLine), toFloat).value, [], lines, toFloat)
  {
    var parsed := ParseInput(Strip(xLine), toFloat);
    if parsed.Err? {
      return Abort("Error: " + parsed.error);
    }
    var x := parsed.value;
    ghost var whole := Interactive(x, [], lines, toFloat);
    var ys: seq<seq<real>> := [];
    var i := 0;
    while i < |lines|
      invariant 0 <= i <= |lines|
      invariant Interactive(x, ys, lines[i..], toFloat) == whole
    {
      var line := Strip(lines[i]);
      InteractiveStep(x, ys, lines, i, toFloat);
      i := i + 1;
      if Lower(line) == "done" {
        if ys == [] {
          return Abort(NoDatasetMessage);
        }
        return Plot(x, ys);
      }
      var y := ParseInput(line, toFloat);
      if y.Err? {
        return Abort("Error: " + y.error);
      }
      if |y.value| != |x| {
        continue;
      }
      ys := ys + [y.value];
    }
    return EndOfInput;
  }
}
