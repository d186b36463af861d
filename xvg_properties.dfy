/**
 * What `parse_xvg` promises about a whole file: how each kind of directive
 * changes the metadata, which lines become data rows, the order of the
 * series labels, which directive wins when a key is set twice, and the
 * shape of the parsed columns and labels.
 */
module XvgProperties {
  import opened Builtins
  import opened Xvg

  /** The reading loop over `lines` followed by one more line. */
  lemma ScanSnoc(lines: seq<string>, line: string, lex: Lexer)
    ensures Scan(lines + [line], lex) == Continue(Scan(lines, lex), line, lex)
  {
    assert (lines + [line])[..|lines|] == lines;
  }

  // ---------------------------------------------------------------------
  // One more line: the effect of each kind of line on the parse state
  // ---------------------------------------------------------------------

  /** A `legend` or `view` directive changes nothing. */
  lemma IgnoredDirectiveChangesNothing(lines: seq<string>, line: string, lex: Lexer)
    requires Scan(lines, lex).Ok? && IsDirectiveLine(line)
    requires DirectiveTokens(line, lex) != [] && DirectiveTokens(line, lex)[0] in IgnoredNames
    ensures Scan(lines + [line], lex) == Scan(lines, lex)
  {
    ScanSnoc(lines, line, lex);
  }

  /**
   * A `TYPE` directive is accepted, and records nothing, exactly when its
   * second token is `xy`; any other second token, or none, stops the parse.
   */
  lemma ChartTypeDirective(lines: seq<string>, line: string, lex: Lexer)
    requires Scan(lines, lex).Ok? && IsDirectiveLine(line)
    requires DirectiveTokens(line, lex) != [] && DirectiveTokens(line, lex)[0] == "TYPE"
    ensures var t := DirectiveTokens(line, lex);
      Scan(lines + [line], lex) ==
        if |t| < 2 then Err(MissingChartType)
        else if t[1] == "xy" then Scan(lines, lex)
        else Err(UnsupportedChartType(t[1]))
  {
    ScanSnoc(lines, line, lex);
  }

  /**
   * A directive named `s` followed by digits appends its last token to the
   * series labels and changes nothing else.
   */
  lemma SeriesDirectiveAppendsLegend(lines: seq<string>, line: string, lex: Lexer)
    requires Scan(lines, lex).Ok? && IsDirectiveLine(line)
    requires DirectiveTokens(line, lex) != [] && IsSeriesName(DirectiveTokens(line, lex)[0])
    requires !LabelsClobbered(Scan(lines, lex).value.meta)
    ensures var st := Scan(lines, lex).value;
      Scan(lines + [line], lex) == Ok(st.(meta := st.meta.(series := st.meta.series + [Last(DirectiveTokens(line, lex))])))
  {
    ScanSnoc(lines, line, lex);
    var t := DirectiveTokens(line, lex);
    assert t[0] != "TYPE" && t[0] !in IgnoredNames by {
      assert "TYPE"[0] != 's' && "legend"[0] != 's' && "view"[0] != 's';
    }
  }

  /** A directive named exactly `xaxis` or `yaxis` sets that axis label to its last token. */
  lemma AxisDirectiveSetsLabel(lines: seq<string>, line: string, lex: Lexer)
    requires Scan(lines, lex).Ok? && IsDirectiveLine(line)
    requires DirectiveTokens(line, lex) != [] && IsAxisName(DirectiveTokens(line, lex)[0])
    requires !LabelsClobbered(Scan(lines, lex).value.meta)
    ensures var st := Scan(lines, lex).value; var t := DirectiveTokens(line, lex);
      Scan(lines + [line], lex) == Ok(st.(meta := st.meta.(axes := st.meta.axes[t[0] := Last(t)])))
  {
    ScanSnoc(lines, line, lex);
    var t := DirectiveTokens(line, lex);
    AxisNameIsExact(t[0]);
  }

  /** Any other directive of exactly two tokens stores its second token under its first. */
  lemma PairDirectiveStoresValue(lines: seq<string>, line: string, lex: Lexer)
    requires Scan(lines, lex).Ok? && IsDirectiveLine(line)
    requires var t := DirectiveTokens(line, lex);
      |t| == 2 && t[0] !in IgnoredNames && t[0] != "TYPE" && !IsSeriesName(t[0]) && !IsAxisName(t[0])
    ensures var st := Scan(lines, lex).value; var t := DirectiveTokens(line, lex);
      Scan(lines + [line], lex) == Ok(st.(meta := st.meta.(entries := st.meta.entries[t[0] := t[1]])))
  {
    ScanSnoc(lines, line, lex);
  }

  /** A directive of any other shape leaves the metadata alone; only its name is reported. */
  lemma OtherDirectiveIsReported(lines: seq<string>, line: string, lex: Lexer)
    requires Scan(lines, lex).Ok? && IsDirectiveLine(line)
    requires var t := DirectiveTokens(line, lex);
      t != [] && |t| != 2 && t[0] !in IgnoredNames && t[0] != "TYPE" && !IsSeriesName(t[0]) && !IsAxisName(t[0])
    ensures var st := Scan(lines, lex).value;
      Scan(lines + [line], lex) == Ok(st.(reported := st.reported + [DirectiveTokens(line, lex)[0]]))
  {
    ScanSnoc(lines, line, lex);
  }

  /** A directive with no tokens at all stops the parse. */
  lemma EmptyDirectiveFails(lines: seq<string>, line: string, lex: Lexer)
    requires Scan(lines, lex).Ok? && IsDirectiveLine(line) && DirectiveTokens(line, lex) == []
    ensures Scan(lines + [line], lex) == Err(EmptyDirective)
  {
    ScanSnoc(lines, line, lex);
  }

  /** A line of whitespace only stops the parse. */
  lemma BlankLineFails(lines: seq<string>, line: string, lex: Lexer)
    requires Scan(lines, lex).Ok? && AllSpace(line)
    ensures Scan(lines + [line], lex) == Err(BlankLine)
  {
    ScanSnoc(lines, line, lex);
    StripSpec(line);
  }

  /** A line whose first non-blank character is a digit appends its numbers as a new row. */
  lemma DataLineAppendsRow(lines: seq<string>, line: string, lex: Lexer)
    requires Scan(lines, lex).Ok? && IsDataLine(line)
    ensures var st := Scan(lines, lex).value;
      Scan(lines + [line], lex) == Ok(st.(rows := st.rows + [DataRow(line, lex)]))
  {
    ScanSnoc(lines, line, lex);
  }

  /** A non-blank line that starts with neither `@` nor a digit (a `#` comment, a `-`, a `.`) changes nothing. */
  lemma OtherLineChangesNothing(lines: seq<string>, line: string, lex: Lexer)
    requires Scan(lines, lex).Ok? && !AllSpace(line) && !IsDirectiveLine(line) && !IsDataLine(line)
    ensures Scan(lines + [line], lex) == Scan(lines, lex)
  {
    ScanSnoc(lines, line, lex);
    StripSpec(line);
  }

  /** The axis pattern is anchored and case-sensitive: only these four names match it. */
  lemma AxisNameIsExact(t: string)
    ensures IsAxisName(t) <==> t in {"xaxis", "yaxis", "xaxis\n", "yaxis\n"}
  {
    assert "xaxis\n" == "xaxis" + "\n" && "yaxis\n" == "yaxis" + "\n";
    assert BeforeEnd("xaxis\n") == "xaxis" && BeforeEnd("yaxis\n") == "yaxis";
    assert BeforeEnd("xaxis") == "xaxis" && BeforeEnd("yaxis") == "yaxis";
    if t != [] && t[|t| - 1] == '\n' {
      assert t == BeforeEnd(t) + "\n";
    }
  }

  // ---------------------------------------------------------------------
  // Whole files: rows, labels and the latest value of a key
  // ---------------------------------------------------------------------

  /** The rows of a file: the numbers of its data lines, in file order. */
  function DataRows(lines: seq<string>, lex: Lexer): seq<seq<real>> {
    if lines == [] then []
    else (if IsDataLine(lines[0]) then [DataRow(lines[0], lex)] else []) + DataRows(lines[1..], lex)
  }

  /** A series-legend directive line. */
  predicate IsLegendLine(line: string, lex: Lexer) {
    IsDirectiveLine(line) && DirectiveTokens(line, lex) != [] && IsSeriesName(DirectiveTokens(line, lex)[0])
  }

  /** The series legends of a file: the last token of each legend directive, in file order. */
  function Legends(lines: seq<string>, lex: Lexer): seq<string> {
    if lines == [] then []
    else (if IsLegendLine(lines[0], lex) then [Last(DirectiveTokens(lines[0], lex))] else []) + Legends(lines[1..], lex)
  }

  lemma {:induction false} DataRowsSnoc(lines: seq<string>, line: string, lex: Lexer)
    ensures DataRows(lines + [line], lex) == DataRows(lines, lex) + DataRows([line], lex)
    decreases |lines|
  {
    if lines != [] {
      assert (lines + [line])[1..] == lines[1..] + [line];
      DataRowsSnoc(lines[1..], line, lex);
    } else {
      assert lines + [line] == [line];
    }
  }

  lemma {:induction false} LegendsSnoc(lines: seq<string>, line: string, lex: Lexer)
    ensures Legends(lines + [line], lex) == Legends(lines, lex) + Legends([line], lex)
    decreases |lines|
  {
    if lines != [] {
      assert (lines + [line])[1..] == lines[1..] + [line];
      LegendsSnoc(lines[1..], line, lex);
    } else {
      assert lines + [line] == [line];
    }
  }

  /** One line read without error adds its own data row and its own legend, and nothing else. */
  lemma StepReadsRowAndLegend(st: ScanState, line: string, lex: Lexer)
    requires Step(st, Strip(line), lex).Ok?
    ensures var next := Step(st, Strip(line), lex).value;
      next.rows == st.rows + DataRows([line], lex) && next.meta.series == st.meta.series + Legends([line], lex)
  {
    assert [line][1..] == [];
    var text := Strip(line);
    if IsLegendLine(line, lex) {
      var t := DirectiveTokens(line, lex);
      assert t[0] != "TYPE" && t[0] !in IgnoredNames by {
        assert "TYPE"[0] != 's' && "legend"[0] != 's' && "view"[0] != 's';
      }
    } else if IsDirectiveLine(line) && DirectiveTokens(line, lex) != [] && IsAxisName(DirectiveTokens(line, lex)[0]) {
      AxisNameIsExact(DirectiveTokens(line, lex)[0]);
    }
  }

  /**
   * A successful parse reads exactly the data lines, in file order, as its
   * rows, and exactly the legends of the series directives, in file order,
   * as its series labels (before padding).
   */
  lemma {:induction false} ScanReadsRowsAndLegends(lines: seq<string>, lex: Lexer)
    requires Scan(lines, lex).Ok?
    ensures Scan(lines, lex).value.rows == DataRows(lines, lex)
    ensures Scan(lines, lex).value.meta.series == Legends(lines, lex)
    decreases |lines|
  {
    if lines != [] {
      var init, line := lines[..|lines| - 1], lines[|lines| - 1];
      assert lines == init + [line];
      ScanSnoc(init, line, lex);
      assert Scan(init, lex).Ok?;
      ScanReadsRowsAndLegends(init, lex);
      DataRowsSnoc(init, line, lex);
      LegendsSnoc(init, line, lex);
      StepReadsRowAndLegend(Scan(init, lex).value, line, lex);
    }
  }

  /** Every step of a successful parse only appends: labels, rows and reports read early keep their place. */
  lemma {:induction false} ScanOnlyAppends(lines: seq<string>, k: nat, lex: Lexer)
    requires Scan(lines, lex).Ok? && k <= |lines|
    ensures Scan(lines[..k], lex).Ok?
    ensures Scan(lines[..k], lex).value.meta.series <= Scan(lines, lex).value.meta.series
    ensures Scan(lines[..k], lex).value.rows <= Scan(lines, lex).value.rows
    ensures Scan(lines[..k], lex).value.reported <= Scan(lines, lex).value.reported
    decreases |lines| - k
  {
    if k == |lines| {
      assert lines[..k] == lines;
    } else {
      ScanOneMore(lines, k, lex);
      ScanOnlyAppends(lines, k + 1, lex);
      StepAppends(Scan(lines[..k], lex).value, Strip(lines[k]), lex);
    }
  }

  /** Lines that do not store a value under `key` leave its axis label and its value untouched. */
  lemma {:induction false} OtherLinesKeepKey(pre: seq<string>, post: seq<string>, key: string, lex: Lexer)
    requires Scan(pre + post, lex).Ok?
    requires forall l :: l in post ==> !WritesKey(Strip(l), lex, key)
    ensures Scan(pre, lex).Ok?
    ensures AgreeAt(Scan(pre, lex).value.meta.axes, Scan(pre + post, lex).value.meta.axes, key)
    ensures AgreeAt(Scan(pre, lex).value.meta.entries, Scan(pre + post, lex).value.meta.entries, key)
    decreases |post|
  {
    if post == [] {
      assert pre + post == pre;
    } else {
      var init, line := post[..|post| - 1], post[|post| - 1];
      assert pre + post == (pre + init) + [line];
      ScanSnoc(pre + init, line, lex);
      assert Scan(pre + init, lex).Ok?;
      assert forall l :: l in init ==> l in post;
      OtherLinesKeepKey(pre, init, key, lex);
      assert !WritesKey(Strip(line), lex, key);
      StepKeepsOtherKeys(Scan(pre + init, lex).value, Strip(line), lex, key);
    }
  }

  /** The latest `xaxis` (or `yaxis`) directive decides that axis label: no later line stores a value under that name. */
  lemma LatestAxisLabelWins(pre: seq<string>, line: string, post: seq<string>, lex: Lexer)
    requires Scan(pre + [line] + post, lex).Ok?
    requires IsDirectiveLine(line) && DirectiveTokens(line, lex) != [] && IsAxisName(DirectiveTokens(line, lex)[0])
    requires forall l :: l in post ==> !WritesKey(Strip(l), lex, DirectiveTokens(line, lex)[0])
    ensures var t := DirectiveTokens(line, lex); var axes := Scan(pre + [line] + post, lex).value.meta.axes;
      t[0] in axes && axes[t[0]] == Last(t)
  {
    var t := DirectiveTokens(line, lex);
    OtherLinesKeepKey(pre + [line], post, t[0], lex);
    ScanSnoc(pre, line, lex);
    assert Scan(pre, lex).Ok?;
    AxisDirectiveSetsLabel(pre, line, lex);
  }

  /**
   * The latest two-token directive with a plain name decides that key's
   * value: later lines may use the name, but only another two-token
   * directive would overwrite it.
   */
  lemma LatestValueWins(pre: seq<string>, line: string, post: seq<string>, lex: Lexer)
    requires Scan(pre + [line] + post, lex).Ok?
    requires IsDirectiveLine(line)
    requires var t := DirectiveTokens(line, lex);
      |t| == 2 && t[0] !in IgnoredNames && t[0] != "TYPE" && !IsSeriesName(t[0]) && !IsAxisName(t[0])
    requires forall l :: l in post ==> !WritesKey(Strip(l), lex, DirectiveTokens(line, lex)[0])
    ensures var t := DirectiveTokens(line, lex); var entries := Scan(pre + [line] + post, lex).value.meta.entries;
      t[0] in entries && entries[t[0]] == t[1]
  {
    var t := DirectiveTokens(line, lex);
    OtherLinesKeepKey(pre + [line], post, t[0], lex);
    ScanSnoc(pre, line, lex);
    assert Scan(pre, lex).Ok?;
    PairDirectiveStoresValue(pre, line, lex);
  }

  // ---------------------------------------------------------------------
  // The parse result
  // ---------------------------------------------------------------------

  /**
   * A successful parse of a file whose data rows all have `width` numbers:
   * there are `width - 1` dependent series, every column holds one value
   * per data row, the legends keep their indices, and exactly
   * `width - 1 - legends` "Missing" labels follow them when there are
   * fewer legends than series.
   */
  lemma ParsedSeries(lines: seq<string>, lex: Lexer, width: nat)
    requires Parse(lines, lex).Ok?
    requires DataRows(lines, lex) != [] && width > 0
    requires forall i :: 0 <= i < |DataRows(lines, lex)| ==> |DataRows(lines, lex)[i]| == width
    ensures var p := Parse(lines, lex).value; var legends := Legends(lines, lex);
      NumSeries(p.columns) == width - 1 &&
      (forall j :: 0 <= j < |p.columns| ==> |p.columns[j]| == |DataRows(lines, lex)|) &&
      |p.meta.series| == Max(|legends|, width - 1) &&
      p.meta.series[..|legends|] == legends &&
      (forall k :: |legends| <= k < |p.meta.series| ==> p.meta.series[k] == "Missing") &&
      p.mislabelled == (|legends| != width - 1)
  {
    ScanReadsRowsAndLegends(lines, lex);
    var rows := DataRows(lines, lex);
    var m := MinLength(rows);
    assert m == width;
  }
}
