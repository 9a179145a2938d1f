/** The properly sized arrays built from one PMT's raw buffers: the log-log
    fit input and the untransformed ("nolog") copies for the linear plot. */
module Preprocessor {
  import opened FloatOps
  import opened Loader

  /** Four parallel columns of one graph: voltage, its error, gain, its error. */
  datatype Sample = Sample(voltage: seq<Value>, voltageError: seq<Value>, gain: seq<Value>, gainError: seq<Value>)

  predicate SampleOfSize(s: Sample, n: nat) {
    |s.voltage| == n && |s.voltageError| == n && |s.gain| == n && |s.gainError| == n
  }

  /** `TMath::Log` of every value of a column. */
  function LogColumn(xs: seq<Value>): (ys: seq<Value>)
    ensures |ys| == |xs|
    ensures forall k :: 0 <= k < |xs| ==> ys[k] == Ln(xs[k])
  {
    if xs == [] then [] else LogColumn(xs[..|xs| - 1]) + [Ln(xs[|xs| - 1])]
  }

  /** Every error of a column divided by the value it belongs to. */
  function RatioColumn(es: seq<Value>, xs: seq<Value>): (ys: seq<Value>)
    requires |es| == |xs|
    ensures |ys| == |xs|
    ensures forall k :: 0 <= k < |xs| ==> ys[k] == Quotient(es[k], xs[k])
  {
    if xs == [] then []
    else RatioColumn(es[..|es| - 1], xs[..|xs| - 1]) + [Quotient(es[|es| - 1], xs[|xs| - 1])]
  }

  /** The log-space columns: ln V, ln G, and the errors divided by the values. */
  function LogSampleOf(raw: RawSample): (s: Sample)
    requires RawValid(raw)
    ensures SampleOfSize(s, raw.count)
  {
    Sample(
      LogColumn(raw.voltages),
      RatioColumn(raw.voltageErrors[..raw.count], raw.voltages),
      LogColumn(raw.gains),
      RatioColumn(raw.gainErrors, raw.gains))
  }

  /** The nolog columns: the first `num_data_points` slots of each raw buffer. */
  function LinearSampleOf(raw: RawSample): (s: Sample)
    requires RawValid(raw)
    ensures SampleOfSize(s, raw.count)
  {
    Sample(raw.voltages, raw.voltageErrors[..raw.count], raw.gains, raw.gainErrors)
  }

  /** Columns that agree point by point with the transformed raw buffers
      are the log and nolog samples of those buffers. */
  lemma PointwiseSamples(raw: RawSample, v: seq<Value>, ve: seq<Value>, g: seq<Value>, ge: seq<Value>,
                         vn: seq<Value>, ven: seq<Value>, gn: seq<Value>, gen: seq<Value>)
    requires RawValid(raw)
    requires |v| == |ve| == |g| == |ge| == |vn| == |ven| == |gn| == |gen| == raw.count
    requires forall k :: 0 <= k < raw.count ==>
               && v[k] == Ln(raw.voltages[k])
               && ve[k] == Quotient(raw.voltageErrors[k], raw.voltages[k])
               && g[k] == Ln(raw.gains[k])
               && ge[k] == Quotient(raw.gainErrors[k], raw.gains[k])
               && vn[k] == raw.voltages[k]
               && ven[k] == raw.voltageErrors[k]
               && gn[k] == raw.gains[k]
               && gen[k] == raw.gainErrors[k]
    ensures Sample(v, ve, g, ge) == LogSampleOf(raw)
    ensures Sample(vn, ven, gn, gen) == LinearSampleOf(raw)
  {
    var lg, lin := LogSampleOf(raw), LinearSampleOf(raw);
    assert v == lg.voltage && ve == lg.voltageError && g == lg.gain && ge == lg.gainError;
    assert vn == lin.voltage && ven == lin.voltageError && gn == lin.gain && gen == lin.gainError;
  }

  /** The loop that populates the properly sized arrays from the raw
      buffers: point i of the log-space arrays holds ln V, the relative
      voltage error, ln G and the relative gain error, and point i of the
      nolog arrays a copy of the raw values. */
  method Populate(raw: RawSample,
                  voltage: array<Value>, voltageError: array<Value>, gain: array<Value>, gainError: array<Value>,
                  voltageNolog: array<Value>, voltageErrorNolog: array<Value>, gainNolog: array<Value>, gainErrorNolog: array<Value>)
    requires RawValid(raw)
    requires voltage.Length == voltageError.Length == gain.Length == gainError.Length == raw.count
    requires voltageNolog.Length == voltageErrorNolog.Length == gainNolog.Length == gainErrorNolog.Length == raw.count
    requires voltage != voltageError && voltage != gain && voltage != gainError && voltage != voltageNolog
    requires voltage != voltageErrorNolog && voltage != gainNolog && voltage != gainErrorNolog && voltageError != gain
    requires voltageError != gainError && voltageError != voltageNolog && voltageError != voltageErrorNolog && voltageError != gainNolog
    requires voltageError != gainErrorNolog && gain != gainError && gain != voltageNolog && gain != voltageErrorNolog
    requires gain != gainNolog && gain != gainErrorNolog && gainError != voltageNolog && gainError != voltageErrorNolog
    requires gainError != gainNolog && gainError != gainErrorNolog && voltageNolog != voltageErrorNolog && voltageNolog != gainNolog
    requires voltageNolog != gainErrorNolog && voltageErrorNolog != gainNolog && voltageErrorNolog != gainErrorNolog && gainNolog != gainErrorNolog
    modifies voltage, voltageError, gain, gainError, voltageNolog, voltageErrorNolog, gainNolog, gainErrorNolog
    ensures forall k :: 0 <= k < raw.count ==>
              && voltage[k] == Ln(raw.voltages[k])
              && voltageError[k] == Quotient(raw.voltageErrors[k], raw.voltages[k])
              && gain[k] == Ln(raw.gains[k])
              && gainError[k] == Quotient(raw.gainErrors[k], raw.gains[k])
              && voltageNolog[k] == raw.voltages[k]
              && voltageErrorNolog[k] == raw.voltageErrors[k]
              && gainNolog[k] == raw.gains[k]
              && gainErrorNolog[k] == raw.gainErrors[k]
    ensures Sample(voltage[..], voltageError[..], gain[..], gainError[..]) == LogSampleOf(raw)
    ensures Sample(voltageNolog[..], voltageErrorNolog[..], gainNolog[..], gainErrorNolog[..]) == LinearSampleOf(raw)
  {
    var vs, ves, gs, ges := raw.voltages, raw.voltageErrors, raw.gains, raw.gainErrors;
    for i := 0 to raw.count
      invariant forall k :: 0 <= k < i ==>
                  && voltage[k] == Ln(vs[k])
                  && voltageError[k] == Quotient(ves[k], vs[k])
                  && gain[k] == Ln(gs[k])
                  && gainError[k] == Quotient(ges[k], gs[k])
                  && voltageNolog[k] == vs[k]
                  && voltageErrorNolog[k] == ves[k]
                  && gainNolog[k] == gs[k]
                  && gainErrorNolog[k] == ges[k]
    {
      voltage[i] := Ln(vs[i]);
      gain[i] := Ln(gs[i]);
      gainError[i] := Quotient(ges[i], gs[i]);
      voltageError[i] := Quotient(ves[i], vs[i]);

      voltageNolog[i] := vs[i];
      voltageErrorNolog[i] := ves[i];
      gainNolog[i] := gs[i];
      gainErrorNolog[i] := ges[i];
    }
    PointwiseSamples(raw, voltage[..], voltageError[..], gain[..], gainError[..],
                     voltageNolog[..], voltageErrorNolog[..], gainNolog[..], gainErrorNolog[..]);
  }

  /** Allocates the eight properly sized arrays, populates them, and hands
      them on as the log-space graph and the nolog graph. */
  method Transform(raw: RawSample) returns (logSample: Sample, linearSample: Sample)
    requires RawValid(raw)
    ensures logSample == LogSampleOf(raw)
    ensures linearSample == LinearSampleOf(raw)
  {
    var n := raw.count;
    var voltage := new Value[n];
    var voltageError := new Value[n];
    var gain := new Value[n];
    var gainError := new Value[n];
    var voltageNolog := new Value[n];
    var voltageErrorNolog := new Value[n];
    var gainNolog := new Value[n];
    var gainErrorNolog := new Value[n];
    Populate(raw, voltage, voltageError, gain, gainError, voltageNolog, voltageErrorNolog, gainNolog, gainErrorNolog);
    logSample := Sample(voltage[..], voltageError[..], gain[..], gainError[..]);
    linearSample := Sample(voltageNolog[..], voltageErrorNolog[..], gainNolog[..], gainErrorNolog[..]);
  }

  /** Point i of both graphs comes from the i-th matching record: the nolog
      copy holds its voltage, the constant voltage error and the scaled gain
      and gain error; the log copy holds their logarithms and relative errors. */
  lemma SamplesOfRecords(ms: seq<Record>, i: nat)
    requires |ms| <= Capacity && i < |ms|
    ensures var lin := LinearSampleOf(RawOf(ms));
            && lin.voltage[i] == Lit(ms[i].voltage)
            && lin.voltageError[i] == VoltageError
            && lin.gain[i] == Scaled(Lit(ms[i].gain))
            && lin.gainError[i] == Scaled(Lit(ms[i].gainError))
    ensures var lg := LogSampleOf(RawOf(ms));
            && lg.voltage[i] == Ln(Lit(ms[i].voltage))
            && lg.voltageError[i] == Quotient(VoltageError, Lit(ms[i].voltage))
            && lg.gain[i] == Ln(Scaled(Lit(ms[i].gain)))
            && lg.gainError[i] == Quotient(Scaled(Lit(ms[i].gainError)), Scaled(Lit(ms[i].gain)))
  {
  }
}
