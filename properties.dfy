/** What a run of the macro produces, stated over its functional model:
    which PMTs are fitted, the layout of the fit table, the console lines,
    the PDFs printed, and the provenance of every fitted report. */
module RunProperties {
  import opened Decimal
  import opened Fields
  import opened Loader
  import opened Preprocessor
  import opened Fitter
  import opened GainVoltage

  // ---------------------------------------------------------------------------
  // The outputs of any sequence of outcomes

  /** A table made of the block d, d, v(y) for each entry y of pre that keep
      selects, at the positions pinit lists, stays so when pre grows by x and
      the table by x's block. */
  lemma BlockedSnoc<T, U>(pre: seq<T>, x: T, tinit: seq<U>, pinit: seq<nat>, t: seq<U>, p: seq<nat>,
                          keep: T -> bool, d: U, v: T -> U)
    requires |tinit| == 3 * |pinit|
    requires forall j :: 0 <= j < |pinit| ==>
               && pinit[j] < |pre| && keep(pre[pinit[j]])
               && tinit[3 * j] == d && tinit[3 * j + 1] == d && tinit[3 * j + 2] == v(pre[pinit[j]])
    requires t == tinit + (if keep(x) then [d, d, v(x)] else [])
    requires p == pinit + (if keep(x) then [|pre|] else [])
    ensures |t| == 3 * |p|
    ensures forall j :: 0 <= j < |p| ==>
              && p[j] < |pre + [x]| && keep((pre + [x])[p[j]])
              && t[3 * j] == d && t[3 * j + 1] == d && t[3 * j + 2] == v((pre + [x])[p[j]])
  {
    forall j | 0 <= j < |pinit|
      ensures (pre + [x])[pinit[j]] == pre[pinit[j]]
    {
    }
  }

  /** A list whose k-th entry is f(pre[k], k) stays so when pre grows by x
      and the list by f(x, |pre|). */
  lemma IndexedSnoc<T, U>(pre: seq<T>, x: T, init: seq<U>, ys: seq<U>, f: (T, nat) -> U)
    requires |init| == |pre|
    requires forall k :: 0 <= k < |pre| ==> init[k] == f(pre[k], k)
    requires ys == init + [f(x, |pre|)]
    ensures |ys| == |pre + [x]|
    ensures forall k :: 0 <= k < |ys| ==> ys[k] == f((pre + [x])[k], k)
  {
  }

  /** ProcessedOf lists, in increasing order, the positions of the fits. */
  lemma {:induction false} ProcessedAt(os: seq<Outcome>)
    ensures forall j :: 0 <= j < |ProcessedOf(os)| ==> ProcessedOf(os)[j] < |os|
    ensures forall j, j' :: 0 <= j < j' < |ProcessedOf(os)| ==> ProcessedOf(os)[j] < ProcessedOf(os)[j']
    ensures forall k :: 0 <= k < |os| ==> (k in ProcessedOf(os) <==> os[k].Processed?)
    decreases |os|
  {
    if os != [] {
      var init := os[..|os| - 1];
      ProcessedAt(init);
      forall k | 0 <= k < |init| ensures os[k] == init[k] { }
    }
  }

  /** The table holds three lines per fit and nothing for a skip: block j,
      for the j-th fitted PMT, is two dash lines and then the values of that
      PMT's report. */
  lemma {:induction false} TableLayout(os: seq<Outcome>, show: Show)
    ensures |TableOf(os, show)| == 3 * |ProcessedOf(os)|
    ensures forall j :: 0 <= j < |ProcessedOf(os)| ==>
              && ProcessedOf(os)[j] < |os|
              && os[ProcessedOf(os)[j]].Processed?
              && TableOf(os, show)[3 * j] == DashLine
              && TableOf(os, show)[3 * j + 1] == DashLine
              && TableOf(os, show)[3 * j + 2] == ValueLine(os[ProcessedOf(os)[j]].report, show)
    decreases |os|
  {
    if os != [] {
      var init := os[..|os| - 1];
      var last := os[|os| - 1];
      TableLayout(init, show);
      assert os == init + [last];
      BlockedSnoc(init, last, TableOf(init, show), ProcessedOf(init), TableOf(os, show), ProcessedOf(os),
                  (o: Outcome) => o.Processed?, DashLine,
                  (o: Outcome) => if o.Processed? then ValueLine(o.report, show) else []);
    }
  }

  /** Line k of the console is the line of PMT k + 1. */
  lemma {:induction false} ConsoleAt(os: seq<Outcome>)
    ensures |ConsoleOf(os)| == |os|
    ensures forall k :: 0 <= k < |os| ==> ConsoleOf(os)[k] == ConsoleLine(os[k], k)
    decreases |os|
  {
    if os != [] {
      var init := os[..|os| - 1];
      ConsoleAt(init);
      var c := ConsoleOf(init);
      assert os == init + [os[|os| - 1]];
      IndexedSnoc(init, os[|os| - 1], c, ConsoleOf(os), ConsoleLine);
    }
  }

  /** The j-th PDF printed is the one named for the j-th fitted PMT. */
  lemma {:induction false} PrintedAt(os: seq<Outcome>, chimney: string)
    ensures |PrintedOf(os, chimney)| == |ProcessedOf(os)|
    ensures forall j :: 0 <= j < |PrintedOf(os, chimney)| ==>
              PrintedOf(os, chimney)[j] == PdfName(chimney, ProcessedOf(os)[j])
    decreases |os|
  {
    if os != [] {
      PrintedAt(os[..|os| - 1], chimney);
    }
  }

  // ---------------------------------------------------------------------------
  // The outputs of a run

  /** Outcome k of a run is the outcome of PMT k + 1. */
  lemma {:induction false} OutcomesAt(job: Job, n: nat)
    ensures forall k :: 0 <= k < n ==> OutcomesUpTo(job, n)[k] == ChannelOutcome(job, k)
    decreases n
  {
    if n > 0 {
      var init := OutcomesUpTo(job, n - 1);
      OutcomesAt(job, n - 1);
      forall k | 0 <= k < n - 1
        ensures OutcomesUpTo(job, n)[k] == ChannelOutcome(job, k)
      {
        assert OutcomesUpTo(job, n)[k] == init[k];
      }
    }
  }

  /** The fitted PMTs of a run, in increasing order; a PMT is among them
      exactly when 3 or 6 records carry its number. */
  function Fitted(job: Job): seq<nat> {
    ProcessedOf(OutcomesUpTo(job, NPMT))
  }

  lemma FittedExact(job: Job)
    ensures forall j :: 0 <= j < |Fitted(job)| ==> Fitted(job)[j] < NPMT
    ensures forall j, j' :: 0 <= j < j' < |Fitted(job)| ==> Fitted(job)[j] < Fitted(job)[j']
    ensures forall k :: 0 <= k < NPMT ==>
              (k in Fitted(job) <==> ValidCount(|ChannelMatches(job.input, k)|))
  {
    var os := OutcomesUpTo(job, NPMT);
    ProcessedAt(os);
    OutcomesAt(job, NPMT);
    forall k | 0 <= k < NPMT
      ensures k in Fitted(job) <==> ValidCount(|ChannelMatches(job.input, k)|)
    {
      assert os[k] == ChannelOutcome(job, k);
    }
  }

  /** The fit table of a run: three lines per fitted PMT, in increasing PMT
      order, the third holding the values of that PMT's tenth fit. */
  lemma FitTableLayout(job: Job)
    ensures var table := ExpectedRun(job).table;
            && |table| == 3 * |Fitted(job)|
            && forall j :: 0 <= j < |Fitted(job)| ==>
                 && ValidCount(|ChannelMatches(job.input, Fitted(job)[j])|)
                 && table[3 * j] == DashLine
                 && table[3 * j + 1] == DashLine
                 && table[3 * j + 2] == ValueLine(ChannelReport(job, Fitted(job)[j]), job.show)
  {
    var os := OutcomesUpTo(job, NPMT);
    TableLayout(os, job.show);
    OutcomesAt(job, NPMT);
  }

  /** The console of a run has one line per PMT, in PMT order: "Fitting k"
      for a fitted PMT, the skip message for any other. */
  lemma ConsoleLayout(job: Job)
    ensures |ExpectedRun(job).console| == NPMT
    ensures forall k :: 0 <= k < NPMT ==>
              ExpectedRun(job).console[k] ==
              if ValidCount(|ChannelMatches(job.input, k)|) then FittingMessage(k) else SkipMessage(k)
  {
    var os := OutcomesUpTo(job, NPMT);
    ConsoleAt(os);
    OutcomesAt(job, NPMT);
  }

  /** The j-th PDF printed is the one named for the j-th fitted PMT, and no
      two printed PDFs share a name. */
  lemma PrintedLayout(job: Job)
    ensures |ExpectedRun(job).printed| == |Fitted(job)|
    ensures forall j :: 0 <= j < |Fitted(job)| ==>
              ExpectedRun(job).printed[j] == PdfName(job.chimney, Fitted(job)[j])
    ensures forall j, j' :: 0 <= j < j' < |Fitted(job)| ==>
              ExpectedRun(job).printed[j] != ExpectedRun(job).printed[j']
  {
    var os := OutcomesUpTo(job, NPMT);
    PrintedAt(os, job.chimney);
    ProcessedAt(os);
    var p := ProcessedOf(os);
    forall j, j' | 0 <= j < j' < |p|
      ensures PdfName(job.chimney, p[j]) != PdfName(job.chimney, p[j'])
    {
      PdfNamesDistinct(job.chimney, p[j], p[j']);
    }
  }

  /** The dash line is seven `--` fields joined by commas. */
  lemma DashLineJoined()
    ensures DashLine == JoinFields(DashFields)
  {
  }

  /** The dash line splits back into its seven `--` fields. */
  lemma DashLineFields()
    ensures SplitFields(DashLine) == DashFields
  {
    DashLineJoined();
    SplitJoin(DashFields);
  }

  /** A value line splits back into its seven fields when the formatting of
      a double never produces a comma. */
  lemma ValueLineFields(r: FitReport, show: Show)
    requires forall x :: CommaFree(show(x))
    ensures SplitFields(ValueLine(r, show)) == ValueFields(r, show)
  {
    var fs := ValueFields(r, show);
    assert CommaFree(IntToString(r.ndf));
    assert forall i :: 0 <= i < |fs| ==> CommaFree(fs[i]);
    SplitJoin(fs);
  }

  /** The report of a fitted PMT comes from ten fits of its log-space
      graph, the first from the seeded state and each later one from the
      state the one before it left: it is the ten-fold iterate of one fit
      from (-30, 7) with zero errors. */
  lemma ChannelReportIsTenthFit(job: Job, k: nat)
    requires ValidCount(|ChannelMatches(job.input, k)|)
    ensures var data := LogSampleOf(RawOf(ChannelMatches(job.input, k)));
            ChannelReport(job, k) == Iterate(FitStep(job.solver, data), Seeded, 10)
  {
    PassReportIterate(job.solver, LogSampleOf(RawOf(ChannelMatches(job.input, k))), Passes);
  }

  /** Records after the first failed read never reach any PMT. */
  lemma RecordsAfterFailedReadIgnored(rs: seq<Record>, tail: seq<Token>, k: nat)
    requires !StartsWithRecord(tail)
    ensures ChannelMatches(Tokens(rs) + tail, k) == Matching(rs, (k + 1) as real)
  {
    ParseStopsAtFailedRead(rs, tail);
  }
}
