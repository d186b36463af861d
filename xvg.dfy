/**
 * The XVG reader (`parse_xvg`): every line of the file is stripped and then
 * classified. A line starting with `@` is a directive: it is tokenised and
 * sorted into one of six kinds. A line whose first character is a digit is
 * a row of numbers. At the end the rows are transposed into columns and the
 * list of series labels is padded with "Missing" up to the number of
 * dependent series.
 */
module Xvg {
  import opened Builtins

  /** The ways `parse_xvg` stops with an exception instead of returning. */
  datatype ParseError =
    | BlankLine                            // `line[0]` on a line that is empty after stripping (IndexError)
    | EmptyDirective                       // `tokens[0]` on a directive with no tokens (IndexError)
    | MissingChartType                     // `tokens[1]` on a directive that is only `TYPE` (IndexError)
    | UnsupportedChartType(kind: string)   // a `TYPE` other than `xy` (ValueError)
    | LabelsNotADict                       // `metadata['labels']` was overwritten by a `labels` directive (TypeError)

  datatype Result<T> = Ok(value: T) | Err(error: ParseError)

  /**
   * The two library calls the reader delegates to: the shell-style
   * tokeniser applied to a directive (everything after the `@`) and the
   * conversion of a data line into its whitespace-separated numbers.
   */
  datatype Lexer = Lexer(split: string -> seq<string>, numbers: string -> seq<real>)

  /**
   * The `metadata` dictionary: `labels['series']`, the other keys of
   * `labels` (the axis labels, keyed by the directive name that set them)
   * and the top-level key/value entries.
   */
  datatype Metadata = Metadata(series: seq<string>, axes: map<string, string>, entries: map<string, string>)

  /** The state of the reading loop: the metadata, the numeric rows read so far, and the names reported as unsupported. */
  datatype ScanState = ScanState(meta: Metadata, rows: seq<seq<real>>, reported: seq<string>)

  /** What `parse_xvg` returns, with whether it warned that some series are not labelled. */
  datatype Parsed = Parsed(meta: Metadata, columns: seq<seq<real>>, reported: seq<string>, mislabelled: bool)

  /** The six kinds a directive is sorted into. */
  datatype Directive =
    | Ignored
    | ChartTypeXY
    | SeriesLegend(legend: string)
    | AxisLabel(axis: string, title: string)
    | KeyValue(key: string, value: string)
    | Unsupported(name: string)

  const IgnoredNames: set<string> := {"legend", "view"}

  const InitialState := ScanState(Metadata([], map[], map[]), [], [])

  function Last(tokens: seq<string>): string
    requires tokens != []
  {
    tokens[|tokens| - 1]
  }

  /** The text a regular expression ending in `$` must match: `$` also matches just before one final newline. */
  function BeforeEnd(t: string): string {
    if t != [] && t[|t| - 1] == '\n' then t[..|t| - 1] else t
  }

  /** `re.match('s[0-9]+$', t)`: anchored at the start, case-sensitive. */
  predicate IsSeriesName(t: string) {
    var u := BeforeEnd(t);
    |u| >= 2 && u[0] == 's' && AllDigits(u[1..])
  }

  /** `re.match('[xy]axis$', t)`: anchored at the start, case-sensitive. */
  predicate IsAxisName(t: string) {
    BeforeEnd(t) == "xaxis" || BeforeEnd(t) == "yaxis"
  }

  /** The if/elif chain over the tokens of one directive. */
  function Classify(tokens: seq<string>): Result<Directive> {
    if tokens == [] then Err(EmptyDirective)
    else if tokens[0] in IgnoredNames then Ok(Ignored)
    else if tokens[0] == "TYPE" then
      if |tokens| < 2 then Err(MissingChartType)
      else if tokens[1] != "xy" then Err(UnsupportedChartType(tokens[1]))
      else Ok(ChartTypeXY)
    else if IsSeriesName(tokens[0]) then Ok(SeriesLegend(Last(tokens)))
    else if IsAxisName(tokens[0]) then Ok(AxisLabel(tokens[0], Last(tokens)))
    else if |tokens| == 2 then Ok(KeyValue(tokens[0], tokens[1]))
    else Ok(Unsupported(tokens[0]))
  }

  /** A `labels` key/value directive replaces the nested `labels` dictionary by a string. */
  predicate LabelsClobbered(meta: Metadata) {
    "labels" in meta.entries
  }

  /** The effect of one classified directive on the reading state. */
  function Apply(st: ScanState, d: Directive): Result<ScanState> {
    match d
    case Ignored => Ok(st)
    case ChartTypeXY => Ok(st)
    case SeriesLegend(legend) =>
      if LabelsClobbered(st.meta) then Err(LabelsNotADict)
      else Ok(st.(meta := st.meta.(series := st.meta.series + [legend])))
    case AxisLabel(axis, title) =>
      if LabelsClobbered(st.meta) then Err(LabelsNotADict)
      else Ok(st.(meta := st.meta.(axes := st.meta.axes[axis := title])))
    case KeyValue(key, value) => Ok(st.(meta := st.meta.(entries := st.meta.entries[key := value])))
    case Unsupported(name) => Ok(st.(reported := st.reported + [name]))
  }

  predicate IsDirectiveLine(line: string) {
    var s := Strip(line);
    s != [] && s[0] == '@'
  }

  /** Only a line whose first character after stripping is a digit is a row of numbers. */
  predicate IsDataLine(line: string) {
    var s := Strip(line);
    s != [] && IsDigit(s[0])
  }

  /** The tokens of a directive line: the tokeniser applied to what follows the `@`. */
  function DirectiveTokens(line: string, lex: Lexer): seq<string>
    requires IsDirectiveLine(line)
  {
    lex.split(Strip(line)[1..])
  }

  /** The row of numbers a data line contributes. */
  function DataRow(line: string, lex: Lexer): seq<real> {
    lex.numbers(Strip(line))
  }

  /** One pass of the reading loop, on the stripped text of a line. */
  function Step(st: ScanState, text: string, lex: Lexer): Result<ScanState> {
    if text != [] && text[0] == '@' then
      match Classify(lex.split(text[1..]))
      case Err(e) => Err(e)
      case Ok(d) => Apply(st, d)
    else if text == [] then Err(BlankLine)
    else if IsDigit(text[0]) then Ok(st.(rows := st.rows + [lex.numbers(text)]))
    else Ok(st)
  }

  /** The reading loop advanced by one line, unless it has already failed. */
  function Continue(r: Result<ScanState>, line: string, lex: Lexer): Result<ScanState> {
    match r
    case Err(e) => Err(e)
    case Ok(st) => Step(st, Strip(line), lex)
  }

  /** The reading loop over all lines, stopping at the first error. */
  function Scan(lines: seq<string>, lex: Lexer): Result<ScanState>
    decreases |lines|
  {
    if lines == [] then Ok(InitialState)
    else Continue(Scan(lines[..|lines| - 1], lex), lines[|lines| - 1], lex)
  }

  /**
   * The stripped text is a directive that stores a value under `key`: an
   * axis-label directive named `key`, or a key/value directive whose key is
   * `key`.
   */
  predicate WritesKey(text: string, lex: Lexer, key: string) {
    text != [] && text[0] == '@' && Classify(lex.split(text[1..])).Ok? &&
    var d := Classify(lex.split(text[1..])).value;
    (d.AxisLabel? && d.axis == key) || (d.KeyValue? && d.key == key)
  }

  /** Two maps agree on `key`: both lack it, or both hold the same value for it. */
  predicate AgreeAt(m1: map<string, string>, m2: map<string, string>, key: string) {
    (key in m1 <==> key in m2) && (key in m1 ==> m1[key] == m2[key])
  }

  /** A line that is read without error only appends: to the labels, to the rows, to the reported names. */
  lemma StepAppends(st: ScanState, text: string, lex: Lexer)
    requires Step(st, text, lex).Ok?
    ensures var next := Step(st, text, lex).value;
      st.meta.series <= next.meta.series && st.rows <= next.rows && st.reported <= next.reported
  {
  }

  /** A line changes the axis labels and the key/value entries only under its own directive name. */
  lemma StepKeepsOtherKeys(st: ScanState, text: string, lex: Lexer, key: string)
    requires Step(st, text, lex).Ok? && !WritesKey(text, lex, key)
    ensures var next := Step(st, text, lex).value;
      AgreeAt(st.meta.axes, next.meta.axes, key) && AgreeAt(st.meta.entries, next.meta.entries, key)
  {
  }

  /** The length of the shortest row. */
  function MinLength(rows: seq<seq<real>>): (m: nat)
    requires rows != []
    ensures forall i :: 0 <= i < |rows| ==> m <= |rows[i]|
    ensures exists i :: 0 <= i < |rows| && m == |rows[i]|
    decreases |rows|
  {
    if |rows| == 1 then |rows[0]|
    else
      var m := MinLength(rows[..|rows| - 1]);
      assert forall i :: 0 <= i < |rows| - 1 ==> rows[..|rows| - 1][i] == rows[i];
      Min(m, |rows[|rows| - 1]|)
  }

  /**
   * `zip(*rows)`: column `j` holds element `j` of every row, in row order;
   * there are as many columns as the shortest row has elements, and none
   * when there are no rows.
   */
  function Transpose(rows: seq<seq<real>>): (cols: seq<seq<real>>)
    ensures rows == [] ==> cols == []
    ensures rows != [] ==> |cols| == MinLength(rows)
    ensures forall j :: 0 <= j < |cols| ==> |cols[j]| == |rows|
    ensures forall j, i :: 0 <= j < |cols| && 0 <= i < |rows| ==> j < |rows[i]| && cols[j][i] == rows[i][j]
    decreases |rows|
  {
    if rows == [] then []
    else
      var init := Transpose(rows[..|rows| - 1]);
      var last := rows[|rows| - 1];
      if |rows| == 1 then
        seq(|last|, j requires 0 <= j < |last| => [last[j]])
      else
        var n := Min(|init|, |last|);
        assert forall i :: 0 <= i < |rows| - 1 ==> rows[..|rows| - 1][i] == rows[i];
        seq(n, j requires 0 <= j < n => init[j] + [last[j]])
  }

  /** `len(num_data[1:])`: the number of dependent series. */
  function NumSeries(columns: seq<seq<real>>): nat {
    if columns == [] then 0 else |columns| - 1
  }

  /** The labels appended by `for missing in range(n)`: none when `n` is not positive. */
  function Placeholders(n: int): (p: seq<string>)
    ensures |p| == Max(n, 0)
    ensures forall k :: 0 <= k < |p| ==> p[k] == "Missing"
  {
    if n <= 0 then [] else Placeholders(n - 1) + ["Missing"]
  }

  /**
   * What follows the reading loop: the transpose, the check that
   * `labels['series']` is still reachable, and the padding of the labels.
   */
  function Finish(st: ScanState): (r: Result<Parsed>)
    ensures r.Err? <==> LabelsClobbered(st.meta)
    ensures r.Ok? ==>
      var p := r.value; var n := |st.meta.series|;
      p.columns == Transpose(st.rows) &&
      p.mislabelled == (n != NumSeries(p.columns)) &&
      |p.meta.series| == Max(n, NumSeries(p.columns)) &&
      p.meta.series[..n] == st.meta.series &&
      (forall k :: n <= k < |p.meta.series| ==> p.meta.series[k] == "Missing") &&
      p.meta.axes == st.meta.axes && p.meta.entries == st.meta.entries &&
      p.reported == st.reported
  {
    if LabelsClobbered(st.meta) then Err(LabelsNotADict)
    else
      var columns := Transpose(st.rows);
      var labels := st.meta.series;
      var padded := labels + Placeholders(NumSeries(columns) - |labels|);
      assert padded[..|labels|] == labels;
      Ok(Parsed(st.meta.(series := padded), columns, st.reported, |labels| != NumSeries(columns)))
  }

  /** `parse_xvg` on the lines of a file. */
  function Parse(lines: seq<string>, lex: Lexer): Result<Parsed> {
    match Scan(lines, lex)
    case Err(e) => Err(e)
    case Ok(st) => Finish(st)
  }

  /** Once the reading loop has failed, no later line changes the outcome. */
  lemma {:induction false} ScanErrorIsFinal(lines: seq<string>, more: seq<string>, lex: Lexer)
    requires Scan(lines, lex).Err?
    ensures Scan(lines + more, lex) == Scan(lines, lex)
    decreases |more|
  {
    if more != [] {
      var init := more[..|more| - 1];
      ScanErrorIsFinal(lines, init, lex);
      var all := lines + more;
      assert all[..|all| - 1] == lines + init;
      assert Scan(all[..|all| - 1], lex).Err?;
    } else {
      assert lines + more == lines;
    }
  }

  /** The reading loop after one more line: the state so far, advanced by that line unless it already failed. */
  lemma ScanOneMore(lines: seq<string>, i: nat, lex: Lexer)
    requires i < |lines|
    ensures Scan(lines[..i + 1], lex) == Continue(Scan(lines[..i], lex), lines[i], lex)
  {
    assert lines[..i + 1][..i] == lines[..i];
  }

  /** A failure at line `i` is the outcome of the whole reading loop. */
  lemma ScanFailsAt(lines: seq<string>, i: nat, lex: Lexer)
    requires i < |lines| && Scan(lines[..i + 1], lex).Err?
    ensures Scan(lines, lex) == Scan(lines[..i + 1], lex)
  {
    ScanErrorIsFinal(lines[..i + 1], lines[i + 1..], lex);
    assert lines[..i + 1] + lines[i + 1..] == lines;
  }

  /**
   * The reading loop of `parse_xvg`: each line is stripped and classified,
   * and the metadata and the row list are updated in place.
   */
  method ReadLines(lines: seq<string>, lex: Lexer) returns (r: Result<ScanState>)
    ensures r == Scan(lines, lex)
  {
    var series: seq<string> := [];
    var axes: map<string, string> := map[];
    var entries: map<string, string> := map[];
    var rows: seq<seq<real>> := [];
    var reported: seq<string> := [];
    var i := 0;
    assert lines[..0] == [];
    while i < |lines|
      invariant 0 <= i <= |lines|
      invariant Scan(lines[..i], lex) == Ok(ScanState(Metadata(series, axes, entries), rows, reported))
    {
      ghost var st := ScanState(Metadata(series, axes, entries), rows, reported);
      ScanOneMore(lines, i, lex);
      var line := Strip(lines[i]);
      assert Scan(lines[..i + 1], lex) == Step(st, line, lex);
      if line != [] && line[0] == '@' {
        var tokens := lex.split(line[1..]);
        match Classify(tokens)
        case Err(e) =>
          ScanFailsAt(lines, i, lex);
          return Err(e);
        case Ok(d) =>
          assert Scan(lines[..i + 1], lex) == Apply(st, d);
          match d
          case Ignored =>
          case ChartTypeXY =>
          case SeriesLegend(legend) =>
            if "labels" in entries {
              ScanFailsAt(lines, i, lex);
              return Err(LabelsNotADict);
            }
            series := series + [legend];
          case AxisLabel(axis, title) =>
            if "labels" in entries {
              ScanFailsAt(lines, i, lex);
              return Err(LabelsNotADict);
            }
            axes := axes[axis := title];
          case KeyValue(key, value) =>
            entries := entries[key := value];
          case Unsupported(name) =>
            reported := reported + [name];
      } else if line == [] {
        ScanFailsAt(lines, i, lex);
        return Err(BlankLine);
      } else if IsDigit(line[0]) {
        rows := rows + [lex.numbers(line)];
      }
      i := i + 1;
    }
    assert lines[..i] == lines;
    r := Ok(ScanState(Metadata(series, axes, entries), rows, reported));
  }

  /**
   * `parse_xvg`: the reading loop, then the transpose of the rows and a
   * second loop that appends one "Missing" label per unlabelled series.
   */
  method ParseXvg(lines: seq<string>, lex: Lexer) returns (r: Result<Parsed>)
    ensures r == Parse(lines, lex)
  {
    var scan := ReadLines(lines, lex);
    if scan.Err? {
      return Err(scan.error);
    }
    var st := scan.value;
    if "labels" in st.meta.entries {
      return Err(LabelsNotADict);
    }
    var series := st.meta.series;
    var columns := Transpose(st.rows);
    var nLabels := |series|;
    var nSeries := NumSeries(columns);
    var mislabelled := nLabels != nSeries;
    if mislabelled {
      var missing := 0;
      while missing < nSeries - nLabels
        invariant 0 <= missing <= Max(nSeries - nLabels, 0)
        invariant series == st.meta.series + Placeholders(missing)
      {
        series := series + ["Missing"];
        missing := missing + 1;
      }
    }
    assert series == st.meta.series + Placeholders(nSeries - nLabels);
    r := Ok(Parsed(st.meta.(series := series), columns, st.reported, mislabelled));
    assert Parse(lines, lex) == Finish(st);
  }
}
