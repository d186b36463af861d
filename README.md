# xvg_plot in Dafny

A model of the core of `xvg_plot.py`, a script that reads the XVG line
charts written by the GROMACS analysis tools, optionally smooths every
series with a running average, and plots the result. The model covers
three parts of the script:

- `parse_xvg` (modules `Xvg` and `XvgProperties`). Each line of the file is
  stripped. A line starting with `@` is a directive: it is tokenised and
  then ignored (`legend`, `view`), checked (`TYPE xy`), or recorded as a
  series legend (`s<digits>`), an axis label (`xaxis`, `yaxis`), a
  key/value pair (any other two-token directive), or an unsupported name
  that is reported. A line whose first character is a digit is a row of
  numbers. Any other non-blank line is skipped. Afterwards the rows are
  transposed into columns (`zip(*rows)`). The series labels are then
  padded with "Missing" up to the number of dependent series, with a
  warning when the two counts differ. `ReadLines` and `ParseXvg` are the
  loops as methods. `Scan`, `Finish` and `Parse` are the functions they
  are proved against.
- `running_average` (module `Smoothing` for one series, class
  `Plotting.SeriesData` for the in-place update). Every dependent series is
  convolved with `window` weights of `1/window` in NumPy's `'valid'` mode.
  The smoothed series is appended to the data and its label, followed by
  " (Av)", to the labels.
- The drawing loop of `plot_data` (`Plotting.SeriesData.Traces`). Series
  `i` gets label `i`, or "" when there is none. A series whose label ends
  in "(Av)" is drawn against `x[window - 1:]`; every other series is drawn
  against the whole x-axis.

The script targets Python 2.7, and the model follows Python 2 semantics:
`zip` and `map` return lists, so zipping no rows gives no columns, and
`str.strip` and `str.isdigit` work on bytes. Tokenising a directive
(`shlex.split`) and converting a data line to numbers (`float` over
`line.split()`) are not modelled. They are the two functions of a `Lexer`
value that every parsing member takes as a parameter. Apart from the
errors of those two `Lexer` functions, each exception `parse_xvg` can
raise on a readable file is a `ParseError` value:

- `BlankLine`: an empty line after stripping; `line[0]` raises IndexError.
- `EmptyDirective`: a directive with no tokens.
- `MissingChartType`: `TYPE` with no second token.
- `UnsupportedChartType`: a chart type other than `xy`.
- `LabelsNotADict`: a two-token `labels` directive replaces the labels
  dictionary with a string. Later series or axis directives then raise
  TypeError, and so does the final count.

Axis directives are recognised with `re.match('[xy]axis$', ...)`, which
is anchored at the start and case-sensitive: `XAXIS` or `my_xaxis` is not
an axis directive. `XvgProperties.AxisNameIsExact` states exactly which
names match. `$` also matches before a final newline, so `xaxis\n`
matches as well.

## Model

| member | source | states |
|---|---|---|
| Builtins.TrimStartSpec | xvg_plot.py:55 | `lstrip` removes exactly the longest whitespace prefix: the rest is a suffix of the input that does not start with whitespace |
| Builtins.TrimEndSpec | xvg_plot.py:55 | `rstrip` removes exactly the longest whitespace suffix: the rest is a prefix of the input that does not end with whitespace |
| Builtins.StripSpec | xvg_plot.py:55 | `strip` leaves a contiguous part of the line with only whitespace around it, neither starting nor ending with whitespace; the result is empty exactly when the line is all whitespace |
| Builtins.SliceFrom | xvg_plot.py:123 | Python's `x[start:]` is a suffix of `x`, of length `max(len - start, 0)` for a non-negative start and `min(-start, len)` for a negative one |
| Xvg.StepAppends | xvg_plot.py:63-72 | a line read without error only appends to the series labels, the rows and the reported names |
| Xvg.Classify | xvg_plot.py:58-70 | definition of the if/elif chain over a directive's tokens; its cases are stated one by one in the `XvgProperties` directive lemmas |
| Xvg.Apply | xvg_plot.py:58-70 | definition of a classified directive's effect on the metadata; stated in the `XvgProperties` directive lemmas and in `Xvg.StepAppends` |
| Xvg.Step | xvg_plot.py:55-72 | definition of one pass of the reading loop; stated in `Xvg.StepAppends`, `Xvg.StepKeepsOtherKeys` and `XvgProperties.StepReadsRowAndLegend` |
| Xvg.Scan | xvg_plot.py:53-72 | definition of the reading loop over all lines; `Xvg.ReadLines` is proved equal to it, and `XvgProperties.ScanReadsRowsAndLegends`, `ScanOnlyAppends` and `Xvg.ScanErrorIsFinal` state its properties |
| Xvg.Parse | xvg_plot.py:36-83 | definition of `parse_xvg` as reading then `Finish`; `Xvg.ParseXvg` is proved equal to it, and `Xvg.Finish` and `XvgProperties.ParsedSeries` state its properties |
| Xvg.StepKeepsOtherKeys | xvg_plot.py:65-68 | a line changes the axis labels and the key/value entries only under a key it stores a value for |
| Xvg.MinLength | xvg_plot.py:74 | the length of the shortest row: no row is shorter, and some row has exactly that length |
| Xvg.Transpose | xvg_plot.py:74 | `zip(*rows)`: no columns for no rows, as many columns as the shortest row has values, one value per row in each column, and `cols[j][i] == rows[i][j]` |
| Xvg.Placeholders | xvg_plot.py:80-81 | `range(n)` appends `max(n, 0)` labels, all "Missing" |
| Xvg.Finish | xvg_plot.py:74-83 | fails exactly when the labels dictionary was overwritten; otherwise the columns are the transposed rows, the warning is raised exactly when the label and series counts differ, the labels keep their prefix and are padded with "Missing" to the series count, and axes, entries and reports are unchanged |
| Xvg.ScanErrorIsFinal | xvg_plot.py:54-72 | once the reading loop has raised, no later line changes the outcome |
| Xvg.ReadLines | xvg_plot.py:53-72 | the reading loop, updating the metadata and rows in place, returns exactly `Scan` of the lines, including which error stops it |
| Xvg.ParseXvg | xvg_plot.py:36-83 | `parse_xvg`, with its reading and padding loops, returns exactly `Parse` of the lines |
| XvgProperties.IgnoredDirectiveChangesNothing | xvg_plot.py:58-59 | a `legend` or `view` directive leaves the whole parse state unchanged |
| XvgProperties.ChartTypeDirective | xvg_plot.py:60-62 | `TYPE xy` leaves the state unchanged; `TYPE` with another chart type raises with that type, and `TYPE` alone raises |
| XvgProperties.SeriesDirectiveAppendsLegend | xvg_plot.py:63-64 | an `s<digits>` directive appends its last token to the series labels and changes nothing else |
| XvgProperties.AxisDirectiveSetsLabel | xvg_plot.py:65-66 | an `xaxis`/`yaxis` directive sets that axis label to its last token and changes nothing else |
| XvgProperties.PairDirectiveStoresValue | xvg_plot.py:67-68 | any other two-token directive stores its second token under its first and changes nothing else |
| XvgProperties.OtherDirectiveIsReported | xvg_plot.py:69-70 | a directive of any other shape only adds its name to the reported names |
| XvgProperties.EmptyDirectiveFails | xvg_plot.py:57-58 | a directive with no tokens raises |
| XvgProperties.BlankLineFails | xvg_plot.py:55-71 | a line of whitespace only raises |
| XvgProperties.DataLineAppendsRow | xvg_plot.py:71-72 | a line whose first non-blank character is a digit appends its numbers as a new row and changes nothing else |
| XvgProperties.OtherLineChangesNothing | xvg_plot.py:56-71 | a non-blank line starting with neither `@` nor a digit leaves the state unchanged |
| XvgProperties.AxisNameIsExact | xvg_plot.py:41 | the axis pattern matches exactly `xaxis`, `yaxis`, and those two followed by one newline |
| XvgProperties.StepReadsRowAndLegend | xvg_plot.py:63-72 | one line read without error adds exactly its own data row and its own legend |
| XvgProperties.ScanReadsRowsAndLegends | xvg_plot.py:53-72 | after a successful read, the rows are exactly the data lines' numbers in file order and the series labels are exactly the series directives' legends in file order |
| XvgProperties.ScanOnlyAppends | xvg_plot.py:53-72 | every prefix of a successfully read file reads without error, and its labels, rows and reports are prefixes of the final ones |
| XvgProperties.OtherLinesKeepKey | xvg_plot.py:65-68 | lines that do not store a value under a key leave its axis label and its value as they were |
| XvgProperties.LatestAxisLabelWins | xvg_plot.py:65-66 | the last `xaxis`/`yaxis` directive decides that axis label |
| XvgProperties.LatestValueWins | xvg_plot.py:67-68 | the last two-token directive with a given plain name decides that key's value; later directives of another shape with that name (reported, not stored) do not change it |
| XvgProperties.ParsedSeries | xvg_plot.py:74-81 | for rows of equal width `w`, there are `w - 1` series, each column holds one value per data row, the legends keep their indices, exactly the missing labels are "Missing", and the warning is raised exactly when legends and series differ in number |
| Smoothing.ConvolveAt | xvg_plot.py:95 | definition of one entry of the full convolution; its value for constant weights is stated in `Smoothing.ConstantConvolveAt` |
| Smoothing.RunningMean | xvg_plot.py:92-95 | definition of `np.convolve(series, np.repeat(1.0, window)/window, 'valid')`; its values are stated in `Smoothing.WindowMean` and `Smoothing.OversizedWindowMean` |
| Smoothing.ConvolveValid | xvg_plot.py:95 | `'valid'` mode yields `max - min + 1` values, whichever input is the longer |
| Smoothing.ConstantConvolveAt | xvg_plot.py:92-95 | against weights that are all `w`, a partial convolution sum is `w` times the sum of the samples inside the window |
| Smoothing.UniformConvolveAt | xvg_plot.py:92-95 | the same for the weights `1/window` |
| Smoothing.WindowMean | xvg_plot.py:92-95 | for a window that fits, the smoothed series has `len - window + 1` values, and value `j` is the mean of `series[j..j + window]` |
| Smoothing.OversizedWindowMean | xvg_plot.py:92-95 | for a window longer than the series, there are `window - len + 1` values, each the series total over `window` |
| Smoothing.UnitWindowKeepsSeries | xvg_plot.py:92-95 | a window of 1 returns the series unchanged |
| Smoothing.SmoothingExample | xvg_plot.py:92-95 | 1, 2, 3, 4, 5 over a window of 2 gives 1.5, 2.5, 3.5, 4.5 |
| Plotting.AveragedName | xvg_plot.py:96 | the averaged label is the original label, one space, then the "(Av)" marker that `plot_data` looks for |
| Plotting.Averaged | xvg_plot.py:94-97 | definition of the data after `running_average`; stated in `Plotting.RunningAverageResult` |
| Plotting.AveragedLabels | xvg_plot.py:94-96 | definition of the labels after `running_average`; stated in `Plotting.RunningAverageResult` and `Plotting.SurplusLabelsShiftAveragedLabels` |
| Plotting.LabelFor | xvg_plot.py:116-119 | definition of the label lookup with its IndexError fallback to ""; stated in `Plotting.OriginalTraceAligned` and `Plotting.SurplusLabelsShiftAveragedLabels` |
| Plotting.XDataFor | xvg_plot.py:121-125 | definition of the x-data choice by the "(Av)" suffix; stated in `Plotting.AveragedTraceAligned`, `OriginalTraceAligned` and `OversizedWindowMisaligned` |
| Plotting.TraceAt | xvg_plot.py:115-127 | definition of what `ax.plot` receives for series `i`; `Plotting.SeriesData.Traces` is proved equal to it, and the alignment lemmas state its properties |
| Plotting.SeriesData.constructor | xvg_plot.py:182 | the shared data and labels are the parsed columns and padded series labels |
| Plotting.SeriesData.RunningAverage | xvg_plot.py:85-99 | appends, in series order, one smoothed series per dependent series to the data and the matching " (Av)" label to the labels, keeping all existing entries |
| Plotting.SeriesData.Traces | xvg_plot.py:115-127 | one trace per dependent series, in order, each with the label `i` (or ""), the series values, and the x-axis chosen by the "(Av)" suffix |
| Plotting.RunningAverageResult | xvg_plot.py:92-97 | for a fitting window, the original columns and labels are kept, `n` series are appended, each holding the window means of its source series, and each labelled with the averaged name of its source's label |
| Plotting.AveragedTraceAligned | xvg_plot.py:121-125 | an averaged series is drawn with its averaged label against an x-axis of its own length exactly when `plot_data` gets the window used for smoothing |
| Plotting.OriginalTraceAligned | xvg_plot.py:116-125 | a series whose label lacks the marker is drawn against the whole x-axis, of its own length |
| Plotting.OversizedWindowMisaligned | xvg_plot.py:92-125 | with a window longer than the series, an averaged series has `window - len + 1` values but is drawn against an empty x-axis |
| Plotting.SurplusLabelsShiftAveragedLabels | xvg_plot.py:94-119 | with more labels than series, the first averaged series is drawn with the first surplus label, not an averaged one |
| Plotting.ParsedChartAligned | xvg_plot.py:182-194 | when a parsed file labels each series exactly once without the marker, and the same fitting window is used to smooth and to plot, every trace has as many x values as y values |

## Left out

- Opening the file, the "file not readable" IOError, and reading it line by line (lines 49-54): the model takes the file as a sequence of lines.
- `shlex.split` (line 57), including its ValueError on unbalanced quotes: this is the `Lexer.split` parameter.
- `float` over `line.split()` (line 72), including its ValueError on a non-numeric token: this is the `Lexer.numbers` parameter.
- The messages printed to stderr and stdout. Line 70's message is kept only as the reported name in `reported`. Line 79's message is kept only as the `mislabelled` flag, without its text. The messages of lines 185 and 188 are not modelled at all.
- Floating-point rounding in `np.convolve`: the smoothed values are exact reals.
- Smoothing.ConvolveValid: only the values of the uniform-weight case are characterised; NumPy's general convolution is not specified further.
- Plotting.SeriesData.RunningAverage: requires a window of at least 1 and a label for every series. NumPy's errors for a zero or negative window are not modelled. A parsed file always has a label for every series.
- The colours, axis titles, chart title, background, grid, legend frame, saving and showing of `plot_data` (lines 107-113 and 127-147): these are matplotlib calls; only what each `ax.plot` call receives is modelled.
- The import guard and the command-line parsing (lines 25-32 and 150-180): argument values reach the model as parameters.
- Python 3 behaviour (lazy `zip`/`map`, Unicode `strip` and `isdigit`): the script targets Python 2.7.
