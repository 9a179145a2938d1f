# GainVoltage: a Dafny model of the ICARUS PMT gain-versus-voltage macro

`GainVoltage(chimney)` handles the ten photomultiplier tubes (PMTs) of one
chimney.

For each PMT, in increasing order, it:
- re-reads the measurement table `CHIMNEY.txt` from the start, as quadruples
  (PMT number, voltage, gain, gain error), stopping at the first quadruple
  that does not extract;
- collects that PMT's records into six-slot buffers, with the gain and its
  error scaled by 10^7 and the voltage error fixed at 2;
- builds the log-space columns (ln V, ln G, relative errors) and the
  untransformed "nolog" copies;
- skips the PMT with a console message unless it has exactly 3 or 6 points;
- otherwise fits a straight line to ln G against ln V from the seed
  (-30, 7), then re-seeds from the result and refits nine more times;
- writes a three-line block to the comma-separated fit table: two lines of
  seven `--` fields, then constant, its error, exponent, its error,
  chi-square, NDF and fit probability;
- prints its canvas to `chimney_<n>_gainvsvoltage.pdf`.

The table goes to `chimney_gainvsvoltage.txt` and the canvases to
`chimney_gainvsvoltage.root`.

The model is imperative where the macro is:
- The read loop fills `array`s under a running counter (`Loader.ScanInput`).
- The populate loop writes eight arrays in place (`Preprocessor.Populate`).
- The `TF1` fit object is a class whose parameters the refit loop updates
  (`Fitter.PolFit`, `Fitter.RunFits`).
- The name loop fills an `array` (`GainVoltage.BuildPdfNames`).
- The PMT loop streams lines into output sinks (`GainVoltage.ProcessAll`).

Each method is proved against a specification function:
- `ParseRecords` / `Matching` / `RawOf` for the read loop;
- `LogSampleOf` / `LinearSampleOf` for the transformed columns;
- `PassReport` / `Iterate` for the fits;
- `TableOf` / `ConsoleOf` / `PrintedOf` over the per-PMT outcomes for the
  outputs.

The lemmas in `RunProperties` state how a whole run looks in the macro's
own terms:
- which PMTs are fitted;
- where each PMT's block lands in the table;
- what the console says;
- which PDFs are printed, with no two sharing a name;
- that every report is the tenth fit from the seed.

Files:
- `float_ops.dfy` (`FloatOps`): symbolic doubles.
- `decimal.dfy` (`Decimal`): `std::to_string`.
- `fields.dfy` (`Fields`): comma-joined lines.
- `loader.dfy` (`Loader`): input and raw buffers.
- `preprocess.dfy` (`Preprocessor`): the properly sized arrays.
- `fitter.dfy` (`Fitter`): the fit object and the refit loop.
- `gain_voltage.dfy` (`GainVoltage`): names, the per-PMT pass and the macro.
- `properties.dfy` (`RunProperties`): run-level properties.

The order of the code's steps decides two things the model keeps:
- A skipped PMT writes nothing at all to the fit table. Its `continue`
  (GainVoltage.C:106) comes before the dash lines (GainVoltage.C:155-163).
- The 3-or-6 check (GainVoltage.C:101) runs only after the raw buffers are
  filled (GainVoltage.C:68-75) and the properly sized arrays are populated
  (GainVoltage.C:89-99).

## Model

| member | source | states |
|---|---|---|
| Loader.ParseTokens | GainVoltage.C:64-75 | records written as complete quadruples are read back in order, and reading then continues with what follows them |
| Loader.ParseOneRecord | GainVoltage.C:68 | one complete quadruple is extracted as exactly one record, and the rest is read as if it stood alone |
| Loader.ParseStopsAtFailedRead | GainVoltage.C:68 | once a quadruple fails to extract, nothing after it is read, whatever it holds |
| Loader.ParseRecordsAt | GainVoltage.C:68 | `ParseRecords`, the table as the repeated extraction reads it, has at most one record per four tokens, and record j is the one tokens 4j to 4j + 3 form, all of which extracted |
| Loader.Tokens | GainVoltage.C:5-6 | a table of n records is 4n numeric tokens |
| Loader.Matching | GainVoltage.C:68-74 | a PMT never keeps more records than were read |
| Loader.MatchingAtIndices | GainVoltage.C:68-74 | the j-th record kept for a PMT is the input record at the j-th matching position |
| Loader.MatchIndicesIncreasing | GainVoltage.C:68-74 | the matching positions are in range and strictly increasing (input order, none taken twice) |
| Loader.MatchIndicesExact | GainVoltage.C:69 | a position is taken exactly when its record's PMT number equals `pmt_num + 1` |
| Loader.MatchingIsOrderedFilter | GainVoltage.C:65-75 | the records kept are precisely those with the PMT's number, each once, in input order |
| Loader.MatchingSnoc | GainVoltage.C:69-74 | reading one more record adds it to the kept records exactly when its number matches |
| Loader.MatchingAllSame | GainVoltage.C:69-74 | a table holding only one PMT's records is kept entirely for that PMT |
| Loader.MatchingConcat | GainVoltage.C:68-75 | the records kept from two consecutive parts of the input are those kept from each part, concatenated |
| Loader.RawOf | GainVoltage.C:59-62 | buffers built from at most six records have that many points and six voltage-error slots |
| Loader.WriteSlotsCount | GainVoltage.C:66-73 | the unchecked loop writes the j-th matching record into slot j, so there is one write per match |
| Loader.WriteSlots | GainVoltage.C:70-73 | the unchecked loop makes exactly one buffer write per matching record |
| Loader.SevenMatchesWritePastBuffer | GainVoltage.C:59-73 | a well-formed table with seven records for PMT 1 makes the loop write slot 6 of the six-slot buffers |
| Loader.BufferedIsRawOf | GainVoltage.C:59-75 | buffers that agree slot by slot with the matching records (voltage as read, gain and gain error scaled, all voltage errors 2) are the raw sample of those records |
| Loader.ParseStep | GainVoltage.C:68 | one successful extraction consumes four tokens and yields the record they form |
| Loader.ParseEnd | GainVoltage.C:68 | once the extraction at the read position fails, the records read so far are all the table yields |
| Loader.MatchesExceedCapacity | GainVoltage.C:69-73 | once seven records have matched, the whole table holds more matches than the six-slot buffers, whatever follows |
| Loader.ScanInput | GainVoltage.C:64-75 | the read loop over the arrays: overflow exactly when more than six records match; otherwise `num_data_points` is the number of matches and slot i holds the i-th match's voltage, scaled gain and scaled gain error |
| Loader.ReadChannel | GainVoltage.C:56-75 | one fresh pass over the input for PMT `pmt_num + 1`: overflow exactly when more than six records match, otherwise the raw buffers of the matching records with every voltage error 2 |
| Preprocessor.LogColumn | GainVoltage.C:90-91 | point k of the column is `TMath::Log` of point k of the input |
| Preprocessor.RatioColumn | GainVoltage.C:92-93 | point k of the column is error k divided by value k |
| Preprocessor.LogSampleOf | GainVoltage.C:78-93 | the log-space graph has `num_data_points` points in each of its four columns |
| Preprocessor.LinearSampleOf | GainVoltage.C:83-98 | the nolog graph has `num_data_points` points in each of its four columns |
| Preprocessor.PointwiseSamples | GainVoltage.C:89-99 | columns that agree point by point with the transformed buffers are the log graph and the nolog graph |
| Preprocessor.Populate | GainVoltage.C:88-99 | the populate loop: point i of the log arrays holds ln V, V error / V, ln G, G error / G; point i of the nolog arrays equals the raw buffers; the arrays are those two graphs |
| Preprocessor.Transform | GainVoltage.C:77-99 | allocating and populating the eight arrays yields exactly the log-space graph and the nolog graph of the raw buffers |
| Preprocessor.SamplesOfRecords | GainVoltage.C:60-99 | point i of the nolog graph is the i-th matching record's voltage, the constant error 2, and the gain and gain error scaled by 10^7; point i of the log graph holds their logarithms and relative errors |
| Fitter.PassReportIterate | GainVoltage.C:138-145 | `PassReport`, the fit function's state after n fits, is the n-fold iterate of one fit started from the seeded state: parameters (-30, 7) and a new fit function's zero errors and statistics |
| Fitter.ConvergedFitIsStable | GainVoltage.C:141-145 | once a fit leaves the fit function's whole state (parameters, errors, statistics) as it found it, every later fit leaves that same state |
| Fitter.PolFit.constructor | GainVoltage.C:110 | a new fit function starts with zero parameters, errors and statistics |
| Fitter.PolFit.SetParameters | GainVoltage.C:138-143 | sets the two parameters and leaves their errors and the last fit's statistics untouched |
| Fitter.PolFit.GetParameters | GainVoltage.C:142-149 | copies the two parameters into the two-slot array |
| Fitter.PolFit.FitTo | GainVoltage.C:140-144 | the fit function's new state is the solver's result from its whole current state: the parameters, and the errors Minuit takes as initial step sizes |
| Fitter.RunFits | GainVoltage.C:137-151 | seed, one fit, nine re-seeded refits: the values read back are the tenth fit's report, the ten-fold iterate of one fit from the seeded state |
| Decimal.DigitChar | GainVoltage.C:40 | a digit below ten renders as the decimal character of that value |
| Decimal.NatToString | GainVoltage.C:40 | `std::to_string` of a PMT number is a non-empty string of decimal digits, with a leading '0' only for zero |
| Decimal.IntToString | GainVoltage.C:168 | the NDF renders as digits with a leading '-' exactly when it is negative |
| Decimal.DigitsValueOfNatToString | GainVoltage.C:40 | reading back the rendered numeral gives the number |
| Decimal.NatToStringInjective | GainVoltage.C:40 | distinct numbers render as distinct numerals |
| Fields.SplitFields | GainVoltage.C:157-170 | splitting a line on ',' always yields at least one field |
| Fields.SplitCommaFreePrefix | GainVoltage.C:157-170 | a comma-free prefix is glued onto the first field of what follows |
| Fields.SplitJoin | GainVoltage.C:157-170 | splitting a line of comma-free fields joined with ',' gives back exactly those fields |
| Fields.JoinFields | GainVoltage.C:157-170 | a joined line begins with its first field and has at least one character, its comma, for every field after the first |
| GainVoltage.PdfNamesAt | GainVoltage.C:39-41 | the name list has one entry per PMT, and entry k is the PDF name of PMT k + 1 |
| GainVoltage.PdfNameParts | GainVoltage.C:40 | `PdfName` of PMT i + 1 is the chimney, '_', the decimal numeral of i + 1 and `_gainvsvoltage.pdf`, and the numeral reads back as i + 1 |
| GainVoltage.TxtName | GainVoltage.C:44 | the fit table's name is the chimney name and 18 more characters, ending in `.txt` |
| GainVoltage.RootName | GainVoltage.C:45 | the ROOT file's name is the chimney name and 19 more characters, ending in `.root` |
| GainVoltage.InputName | GainVoltage.C:56 | the input's name is the chimney name followed by exactly `.txt` |
| GainVoltage.PdfNamesDistinct | GainVoltage.C:39-41 | different PMTs get different PDF names |
| GainVoltage.OutputNamesDistinct | GainVoltage.C:39-56 | no two of the PDF, text, ROOT and input names coincide |
| GainVoltage.ChannelOutcome | GainVoltage.C:101-150 | a PMT is processed if and only if 3 or 6 records carry its number, and a processed PMT's report is the state after its tenth fit |
| GainVoltage.ValueFields | GainVoltage.C:165-170 | the value line has seven fields |
| GainVoltage.ValueLine | GainVoltage.C:165-170 | the value line starts with the rendered constant and has room for its six commas; `RunProperties.ValueLineFields` gives its whole field structure |
| GainVoltage.Block | GainVoltage.C:155-170 | a fitted PMT adds three lines to the table and a skipped one none |
| GainVoltage.SkipMessageNumber | GainVoltage.C:102-105 | `SkipMessage` is "Improper number of data points for PMT ", a decimal numeral and ". SKIPPING", and the numeral reads back as `pmt_num + 1` |
| GainVoltage.FittingMessageNumber | GainVoltage.C:139 | `FittingMessage` is "Fitting " and a decimal numeral that reads back as `pmt_num + 1` |
| GainVoltage.OutcomesUpTo | GainVoltage.C:53 | there is one outcome per PMT handled so far |
| GainVoltage.TableOf | GainVoltage.C:155-170 | the table of a run of outcomes has three lines per fitted PMT and none for a skipped one |
| GainVoltage.PrintedOf | GainVoltage.C:200 | one PDF is printed per fitted PMT |
| GainVoltage.OutputsSnoc | GainVoltage.C:53-201 | handling one more PMT extends the table by its block, the console by its line, and the printed PDFs by its name if it was fitted |
| GainVoltage.Sink.constructor | GainVoltage.C:47 | a freshly opened output holds nothing |
| GainVoltage.Sink.Put | GainVoltage.C:155-170 | writing a line appends it and changes nothing else |
| GainVoltage.WriteBlock | GainVoltage.C:155-170 | the `j` loop writes two dash lines, then the value line of the report |
| GainVoltage.ProcessChannel | GainVoltage.C:55-200 | one pass of the PMT loop: the table grows by the PMT's block, the console by "Fitting n" or the skip message, and the printed PDFs by its name exactly when it has 3 or 6 points |
| GainVoltage.BuildPdfNames | GainVoltage.C:36-41 | the loop fills `outnamepdf` with the ten PDF names in PMT order |
| GainVoltage.ProcessAll | GainVoltage.C:53-201 | after the PMT loop the table, the console and the printed PDFs are those of the ten outcomes in PMT order |
| GainVoltage.RunGainVoltage | GainVoltage.C:29-201 | the macro produces exactly the expected names, fit table, console and printed PDFs of the job |
| RunProperties.ProcessedAt | GainVoltage.C:101-107 | the fitted PMTs are listed in increasing order, and a PMT is listed exactly when it was processed |
| RunProperties.TableLayout | GainVoltage.C:155-170 | the table has three lines per fitted PMT and none for a skip; block j is two dash lines and the values of the j-th fitted PMT |
| RunProperties.ConsoleAt | GainVoltage.C:101-139 | `ConsoleOf` has one line per PMT, and console line k is the line of PMT k + 1 |
| RunProperties.PrintedAt | GainVoltage.C:200 | the j-th printed PDF is the one named for the j-th fitted PMT |
| RunProperties.OutcomesAt | GainVoltage.C:53 | outcome k of a run is the outcome of PMT k + 1 |
| RunProperties.FittedExact | GainVoltage.C:101-107 | the fitted PMTs of a run are in range and increasing, and a PMT is fitted if and only if 3 or 6 records carry its number |
| RunProperties.FitTableLayout | GainVoltage.C:101-170 | the run's table has three lines per fitted PMT, in increasing PMT order; the third line of each block holds the values of that PMT's tenth fit |
| RunProperties.ConsoleLayout | GainVoltage.C:101-139 | the run's console has one line per PMT in PMT order: "Fitting n" for a PMT with 3 or 6 points, the skip message for any other |
| RunProperties.PrintedLayout | GainVoltage.C:200 | the run prints the PDF of each fitted PMT, in order, and no two printed PDFs share a name |
| RunProperties.DashLineJoined | GainVoltage.C:157-162 | the dash line written is the seven `--` fields joined by commas |
| RunProperties.DashLineFields | GainVoltage.C:155-163 | the dash line is seven `--` fields joined by commas and splits back into them |
| RunProperties.ValueLineFields | GainVoltage.C:165-170 | the value line splits back into its seven fields when the formatting of a double never produces a comma |
| RunProperties.ChannelReportIsTenthFit | GainVoltage.C:138-150 | a fitted PMT's report is the ten-fold iterate, on its own log-space graph, of one fit from the seeded state |
| RunProperties.RecordsAfterFailedReadIgnored | GainVoltage.C:56-68 | records after the first failed read never reach any PMT, on any of its fresh passes |

## Left out

- Canvases, graphs, titles, styles, frames and legends are not modelled (GainVoltage.C:49-50, 113-135, 148, 172-195). The same goes for the `power` curve overlay and the `TFile` writes (GainVoltage.C:46, 198-199). All of this is rendering. Only the name of each PDF printed is kept (GainVoltage.C:200). `power` is not part of this model.
- The Minuit minimiser behind `Fit("ME")` is an uninterpreted `Solver`. It maps the fit function's whole state and the graph to the new state. That state is the parameters, their errors (which Minuit takes as initial step sizes), chi-square, NDF and probability. `GetParError`, `GetChisquare`, `GetNDF` and `GetProb` read that state back. How Minuit minimises, and its own console output, are left out.
- Doubles are symbolic (`FloatOps.Value`). `TMath::Log`, the 10^7 scaling and the error divisions are recorded as the operation applied, not evaluated.
- `TMath::Exp(constant)` (the amplitude) is left out. It only feeds the plot.
- The fit range `fbegin`/`fend` and `NPAR` are left out. They only configure the foreign fit and plot.
- Input files and streams are not modelled. The table is given as an already tokenised sequence, and a token either extracts as a double or fails. A missing input file behaves like an empty sequence: the first read fails. The console, the fit table and the printed PDFs are sequences of lines.
- Opening the ROOT and text files (GainVoltage.C:46-47) is represented only by their names.
- How `fout << double` renders a number is the parameter `show`.
- The interleaving of console and file writes across the three streams is not modelled. Each stream's own order is.
- Loader.ReadChannel: stops at a seventh matching record and reports an overflow; the unchecked loop would write past the buffers (see Findings). Such a PMT is skipped, as the 3-or-6 check would skip it anyway.

## Findings

| source | as written | input that shows it | evidently intended | confidence | as-written member | corrected member |
|---|---|---|---|---|---|---|
| GainVoltage.C:59-73 | every matching record is written to slot `num_data_points` of six-slot buffers with no bound check; the 3-or-6 check runs only after the loop | a table with seven records for PMT 1: the seventh is written to `voltage_raw[6]`, `gain_raw[6]` and `gain_error_raw[6]` | reading stops at the capacity, and a PMT with more than six records is skipped like any other count that is not 3 or 6 | not executed | Loader.SevenMatchesWritePastBuffer | Loader.ReadChannel |
