/** The `GainVoltage(chimney)` macro: for each of the ten PMTs of a chimney,
    read its (voltage, gain) points, skip it unless it has 3 or 6 of them,
    fit ln(gain) against ln(voltage) ten times over, and write the fit
    parameters as a 3-line block of the comma-separated fit table. */
module GainVoltage {
  import opened Decimal
  import opened Fields
  import opened Loader
  import opened Preprocessor
  import opened Fitter

  /** PMTs per chimney. */
  const NPMT: nat := 10

  // ---------------------------------------------------------------------------
  // File names

  const PdfSuffix: string := "_gainvsvoltage.pdf"

  /** `outnamepdf[i]`, the PDF of PMT i + 1. */
  function PdfName(chimney: string, i: nat): string {
    chimney + "_" + NatToString(i + 1) + PdfSuffix
  }

  /** `outnametxt`, the fit table. */
  function TxtName(chimney: string): (name: string)
    ensures |name| == |chimney| + 18
    ensures name[..|chimney|] == chimney && name[|name| - 4..] == ".txt"
  {
    chimney + "_gainvsvoltage.txt"
  }

  /** `outnameroot`, the ROOT file the canvases go to. */
  function RootName(chimney: string): (name: string)
    ensures |name| == |chimney| + 19
    ensures name[..|chimney|] == chimney && name[|name| - 5..] == ".root"
  {
    chimney + "_gainvsvoltage.root"
  }

  /** `input_file_name`, the measurement table. */
  function InputName(chimney: string): (name: string)
    ensures |name| == |chimney| + 4
    ensures name[..|chimney|] == chimney && name[|chimney|..] == ".txt"
  {
    chimney + ".txt"
  }

  /** The PDF names of the first n PMTs. */
  function PdfNamesUpTo(chimney: string, n: nat): seq<string> {
    if n == 0 then [] else PdfNamesUpTo(chimney, n - 1) + [PdfName(chimney, n - 1)]
  }

  /** Slot k of the name list is the PDF name of PMT k + 1. */
  lemma {:induction false} PdfNamesAt(chimney: string, n: nat)
    ensures |PdfNamesUpTo(chimney, n)| == n
    ensures forall k :: 0 <= k < n ==> PdfNamesUpTo(chimney, n)[k] == PdfName(chimney, k)
    decreases n
  {
    if n > 0 {
      var init := PdfNamesUpTo(chimney, n - 1);
      PdfNamesAt(chimney, n - 1);
      forall k | 0 <= k < n
        ensures PdfNamesUpTo(chimney, n)[k] == PdfName(chimney, k)
      {
        if k < n - 1 {
          assert PdfNamesUpTo(chimney, n)[k] == init[k];
        }
      }
    }
  }

  /** A PDF name is the chimney, an underscore, the PMT number in decimal,
      and the fixed suffix. */
  lemma PdfNameParts(chimney: string, i: nat)
    ensures var name := PdfName(chimney, i);
            && |chimney| + 1 + |PdfSuffix| < |name|
            && name[..|chimney| + 1] == chimney + "_"
            && name[|name| - |PdfSuffix|..] == PdfSuffix
            && name[|chimney| + 1..|name| - |PdfSuffix|] == NatToString(i + 1)
            && (forall k :: |chimney| + 1 <= k < |name| - |PdfSuffix| ==> IsDigit(name[k]))
            && DigitsValue(name[|chimney| + 1..|name| - |PdfSuffix|]) == i + 1
  {
    var name := PdfName(chimney, i);
    var digits := NatToString(i + 1);
    assert name == (chimney + "_") + digits + PdfSuffix;
    assert name[|chimney| + 1..|name| - |PdfSuffix|] == digits;
    forall k | |chimney| + 1 <= k < |name| - |PdfSuffix|
      ensures IsDigit(name[k])
    {
      assert name[k] == digits[k - |chimney| - 1];
    }
    DigitsValueOfNatToString(i + 1);
  }

  /** The ten PDF names are pairwise distinct, so no PMT's plot overwrites another's. */
  lemma PdfNamesDistinct(chimney: string, i: nat, j: nat)
    requires i != j
    ensures PdfName(chimney, i) != PdfName(chimney, j)
  {
    PdfNameParts(chimney, i);
    PdfNameParts(chimney, j);
    NatToStringInjective(i + 1, j + 1);
  }

  /** The outputs never share a name with each other or with the input. */
  lemma OutputNamesDistinct(chimney: string, i: nat)
    ensures PdfName(chimney, i) != TxtName(chimney)
    ensures PdfName(chimney, i) != RootName(chimney)
    ensures PdfName(chimney, i) != InputName(chimney)
    ensures TxtName(chimney) != RootName(chimney)
    ensures TxtName(chimney) != InputName(chimney)
    ensures RootName(chimney) != InputName(chimney)
  {
    var pdf, txt, root, inp := PdfName(chimney, i), TxtName(chimney), RootName(chimney), InputName(chimney);
    assert pdf[|pdf| - 1] == 'f';
    assert txt[|txt| - 1] == 't' && root[|root| - 1] == 't' && inp[|inp| - 1] == 't';
    assert txt[|txt| - 2] == 'x' && root[|root| - 2] == 'o';
    assert |txt| != |inp| && |root| != |inp|;
  }

  // ---------------------------------------------------------------------------
  // What happens to one PMT

  /** The input and the collaborators of one run of the macro. */
  datatype Job = Job(chimney: string, input: seq<Token>, solver: Solver, show: Show)

  /** How `fout << x` renders a double. */
  type Show = real -> string

  /** The records the read loop of PMT pmt + 1 selects. */
  function ChannelMatches(input: seq<Token>, pmt: nat): seq<Record> {
    Matching(ParseRecords(input), (pmt + 1) as real)
  }

  /** `num_data_points == 3 || num_data_points == 6`. */
  predicate ValidCount(n: nat) {
    n == 3 || n == 6
  }

  datatype Outcome = Skipped | Processed(report: FitReport)

  /** The state of the fit function after the tenth fit of a PMT's
      log-space graph. */
  function ChannelReport(job: Job, pmt: nat): FitReport
    requires ValidCount(|ChannelMatches(job.input, pmt)|)
  {
    PassReport(job.solver, LogSampleOf(RawOf(ChannelMatches(job.input, pmt))), Passes)
  }

  /** A PMT with 3 or 6 points is fitted; any other is skipped. */
  function ChannelOutcome(job: Job, pmt: nat): (o: Outcome)
    ensures o.Processed? <==> ValidCount(|ChannelMatches(job.input, pmt)|)
    ensures o.Processed? ==> o.report == ChannelReport(job, pmt)
  {
    if ValidCount(|ChannelMatches(job.input, pmt)|) then Processed(ChannelReport(job, pmt)) else Skipped
  }

  /** The seven `--` fields written twice per fitted PMT. */
  const DashFields: seq<string> := ["--", "--", "--", "--", "--", "--", "--"]

  const DashLine: string := "--,--,--,--,--,--,--"

  /** constant, its error, exponent, its error, chi-square, NDF, probability. */
  function ValueFields(r: FitReport, show: Show): (fs: seq<string>)
    ensures |fs| == 7
  {
    [show(r.params.constant), show(r.constantError), show(r.params.exponent), show(r.exponentError),
     show(r.chiSquare), IntToString(r.ndf), show(r.prob)]
  }

  function ValueLine(r: FitReport, show: Show): (line: string)
    ensures show(r.params.constant) <= line
    ensures 6 <= |line|
  {
    JoinFields(ValueFields(r, show))
  }

  /** What one PMT adds to the fit table. */
  function Block(o: Outcome, show: Show): (b: seq<string>)
    ensures |b| == if o.Processed? then 3 else 0
  {
    if o.Processed? then [DashLine, DashLine, ValueLine(o.report, show)] else []
  }

  const SkipPrefix: string := "Improper number of data points for PMT "
  const SkipSuffix: string := ". SKIPPING"
  const FittingPrefix: string := "Fitting "

  /** The console line of a PMT whose match count is neither 3 nor 6. */
  function SkipMessage(pmt: nat): string {
    SkipPrefix + NatToString(pmt + 1) + SkipSuffix
  }

  /** The skip message names the PMT by its number in decimal. */
  lemma SkipMessageNumber(pmt: nat)
    ensures var m := SkipMessage(pmt);
            && |SkipPrefix| + |SkipSuffix| < |m|
            && m[..|SkipPrefix|] == SkipPrefix
            && m[|m| - |SkipSuffix|..] == SkipSuffix
            && var digits := m[|SkipPrefix|..|m| - |SkipSuffix|];
               (forall k :: 0 <= k < |digits| ==> IsDigit(digits[k])) && DigitsValue(digits) == pmt + 1
  {
    var m := SkipMessage(pmt);
    assert m[|SkipPrefix|..|m| - |SkipSuffix|] == NatToString(pmt + 1);
    DigitsValueOfNatToString(pmt + 1);
  }

  /** The console line of a PMT about to be fitted. */
  function FittingMessage(pmt: nat): string {
    FittingPrefix + NatToString(pmt + 1)
  }

  /** The fitting message names the PMT by its number in decimal. */
  lemma FittingMessageNumber(pmt: nat)
    ensures var m := FittingMessage(pmt);
            && |FittingPrefix| < |m|
            && m[..|FittingPrefix|] == FittingPrefix
            && var digits := m[|FittingPrefix|..];
               (forall k :: 0 <= k < |digits| ==> IsDigit(digits[k])) && DigitsValue(digits) == pmt + 1
  {
    var m := FittingMessage(pmt);
    assert m[|FittingPrefix|..] == NatToString(pmt + 1);
    DigitsValueOfNatToString(pmt + 1);
  }

  /** What one PMT adds to the console. */
  function ConsoleLine(o: Outcome, pmt: nat): string {
    if o.Processed? then FittingMessage(pmt) else SkipMessage(pmt)
  }

  // ---------------------------------------------------------------------------
  // The outputs of a run, from the outcomes of its PMTs in order

  /** The outcomes of the first n PMTs. */
  function OutcomesUpTo(job: Job, n: nat): (os: seq<Outcome>)
    ensures |os| == n
  {
    if n == 0 then [] else OutcomesUpTo(job, n - 1) + [ChannelOutcome(job, n - 1)]
  }

  /** The fit table: each PMT's block, in PMT order. */
  function TableOf(os: seq<Outcome>, show: Show): (t: seq<string>)
    ensures |t| == 3 * |ProcessedOf(os)|
  {
    if os == [] then [] else TableOf(os[..|os| - 1], show) + Block(os[|os| - 1], show)
  }

  /** The console: one line per PMT, in PMT order. */
  function ConsoleOf(os: seq<Outcome>): seq<string>
  {
    if os == [] then [] else ConsoleOf(os[..|os| - 1]) + [ConsoleLine(os[|os| - 1], |os| - 1)]
  }

  /** The files `c[pmt_num]->Print` writes: the PDF of every fitted PMT. */
  function PrintedOf(os: seq<Outcome>, chimney: string): (p: seq<string>)
    ensures |p| == |ProcessedOf(os)|
  {
    if os == [] then []
    else PrintedOf(os[..|os| - 1], chimney) + (if os[|os| - 1].Processed? then [PdfName(chimney, |os| - 1)] else [])
  }

  /** The fitted PMTs, as 0-based indices. */
  function ProcessedOf(os: seq<Outcome>): seq<nat>
  {
    if os == [] then []
    else ProcessedOf(os[..|os| - 1]) + (if os[|os| - 1].Processed? then [|os| - 1] else [])
  }

  /** One more PMT extends every output by that PMT's share. */
  lemma OutputsSnoc(os: seq<Outcome>, o: Outcome, show: Show, chimney: string)
    ensures TableOf(os + [o], show) == TableOf(os, show) + Block(o, show)
    ensures ConsoleOf(os + [o]) == ConsoleOf(os) + [ConsoleLine(o, |os|)]
    ensures PrintedOf(os + [o], chimney) == PrintedOf(os, chimney) + (if o.Processed? then [PdfName(chimney, |os|)] else [])
  {
    assert (os + [o])[..|os|] == os;
  }

  /** Everything a run leaves behind: the names it built, the file every
      PMT's pass reads, the fit table, the console lines, and the PDFs printed. */
  datatype Run = Run(
    pdfNames: seq<string>,
    txtName: string,
    rootName: string,
    inputName: string,
    table: seq<string>,
    console: seq<string>,
    printed: seq<string>
  )

  function ExpectedRun(job: Job): Run {
    Run(PdfNamesUpTo(job.chimney, NPMT),
        TxtName(job.chimney),
        RootName(job.chimney),
        InputName(job.chimney),
        TableOf(OutcomesUpTo(job, NPMT), job.show),
        ConsoleOf(OutcomesUpTo(job, NPMT)),
        PrintedOf(OutcomesUpTo(job, NPMT), job.chimney))
  }

  // ---------------------------------------------------------------------------
  // The macro

  /** An output stream or file, as the sequence of what was written to it. */
  class Sink<T> {
    var items: seq<T>

    constructor ()
      ensures items == []
    {
      items := [];
    }

    method Put(x: T)
      modifies this
      ensures items == old(items) + [x]
    {
      items := items + [x];
    }
  }

  /** The block of a fitted PMT: two dash lines from the `j` loop, then the values. */
  method WriteBlock(fout: Sink<string>, report: FitReport, show: Show)
    modifies fout
    ensures fout.items == old(fout.items) + [DashLine, DashLine, ValueLine(report, show)]
  {
    ghost var start := fout.items;
    for j := 0 to 2
      invariant fout.items == start + seq(j, k => DashLine)
    {
      fout.Put(DashLine);
    }
    fout.Put(ValueLine(report, show));
  }

  /** One pass of the PMT loop after the input is opened: read, transform,
      gate, and for a PMT with 3 or 6 points fit, write its block of the
      fit table, and print its canvas to its PDF. */
  method ProcessChannel(job: Job, pmtNum: nat, pdfName: string,
                        fout: Sink<string>, console: Sink<string>, pdf: Sink<string>)
    requires fout != console && fout != pdf && console != pdf
    modifies fout, console, pdf
    ensures fout.items == old(fout.items) + Block(ChannelOutcome(job, pmtNum), job.show)
    ensures console.items == old(console.items) + [ConsoleLine(ChannelOutcome(job, pmtNum), pmtNum)]
    ensures pdf.items == old(pdf.items) + (if ChannelOutcome(job, pmtNum).Processed? then [pdfName] else [])
  {
    ghost var ms := ChannelMatches(job.input, pmtNum);
    ghost var o := ChannelOutcome(job, pmtNum);
    var r := ReadChannel(job.input, pmtNum);
    if r.Overflow? {
      assert o == Skipped;
      console.Put(SkipMessage(pmtNum));
      return;
    }
    assert r.raw == RawOf(ms) && r.raw.count == |ms|;
    var logSample, linearSample := Transform(r.raw);
    if r.raw.count != 3 && r.raw.count != 6 {
      assert o == Skipped;
      console.Put(SkipMessage(pmtNum));
      return;
    }
    assert o == Processed(PassReport(job.solver, logSample, Passes));
    console.Put(FittingMessage(pmtNum));
    var report := RunFits(logSample, job.solver);
    WriteBlock(fout, report, job.show);
    pdf.Put(pdfName);
  }

  /** The loop that fills `outnamepdf`. */
  method BuildPdfNames(chimney: string) returns (outnamepdf: array<string>)
    ensures fresh(outnamepdf)
    ensures outnamepdf[..] == PdfNamesUpTo(chimney, NPMT)
  {
    outnamepdf := new string[NPMT];
    for i := 0 to NPMT
      invariant outnamepdf[..i] == PdfNamesUpTo(chimney, i)
    {
      outnamepdf[i] := PdfName(chimney, i);
      assert outnamepdf[..i + 1] == outnamepdf[..i] + [outnamepdf[i]];
    }
    assert outnamepdf[..] == outnamepdf[..NPMT];
  }

  /** The `pmt_num` loop: every PMT in turn, in increasing order. */
  method ProcessAll(job: Job, outnamepdf: array<string>,
                    fout: Sink<string>, console: Sink<string>, pdf: Sink<string>)
    requires outnamepdf.Length == NPMT
    requires forall k :: 0 <= k < NPMT ==> outnamepdf[k] == PdfName(job.chimney, k)
    requires fout != console && fout != pdf && console != pdf
    requires fout.items == [] && console.items == [] && pdf.items == []
    modifies fout, console, pdf
    ensures fout.items == TableOf(OutcomesUpTo(job, NPMT), job.show)
    ensures console.items == ConsoleOf(OutcomesUpTo(job, NPMT))
    ensures pdf.items == PrintedOf(OutcomesUpTo(job, NPMT), job.chimney)
  {
    for pmtNum := 0 to NPMT
      invariant fout.items == TableOf(OutcomesUpTo(job, pmtNum), job.show)
      invariant console.items == ConsoleOf(OutcomesUpTo(job, pmtNum))
      invariant pdf.items == PrintedOf(OutcomesUpTo(job, pmtNum), job.chimney)
    {
      OutputsSnoc(OutcomesUpTo(job, pmtNum), ChannelOutcome(job, pmtNum), job.show, job.chimney);
      ProcessChannel(job, pmtNum, outnamepdf[pmtNum], fout, console, pdf);
    }
  }

  /** `GainVoltage(chimney)`, with the input file's tokens, the fitter and
      the double formatting given. */
  method RunGainVoltage(chimney: string, input: seq<Token>, solver: Solver, show: Show) returns (run: Run)
    ensures run == ExpectedRun(Job(chimney, input, solver, show))
  {
    var job := Job(chimney, input, solver, show);
    var outnamepdf := BuildPdfNames(chimney);
    PdfNamesAt(chimney, NPMT);
    var outnametxt := TxtName(chimney);
    var outnameroot := RootName(chimney);
    var fout := new Sink<string>();
    var console := new Sink<string>();
    var pdf := new Sink<string>();
    ProcessAll(job, outnamepdf, fout, console, pdf);
    run := Run(outnamepdf[..], outnametxt, outnameroot, InputName(chimney), fout.items, console.items, pdf.items);
  }
}
