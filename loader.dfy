/** Reading the measurement table `CHIMNEY.txt` and collecting the records of
    one PMT into the fixed-size raw buffers. */
module Loader {
  import opened FloatOps

  /** Slots in each raw buffer (`Double_t voltage_raw[6]` and its siblings). */
  const Capacity: nat := 6

  /** The value every slot of `voltage_error_raw` is initialised with. */
  const VoltageError: Value := Lit(2.0)

  /** A whitespace-separated token of the input file: either it extracts as a
      double, or extraction fails and puts the stream into its fail state. */
  datatype Token = Num(value: real) | Malformed

  /** One line of the table: PMT number, voltage, gain, gain error. */
  datatype Record = Record(id: real, voltage: real, gain: real, gainError: real)

  /** `input_file >> p >> v >> g >> ge` succeeds on these tokens. */
  predicate StartsWithRecord(ts: seq<Token>) {
    4 <= |ts| && ts[0].Num? && ts[1].Num? && ts[2].Num? && ts[3].Num?
  }

  function RecordAt(ts: seq<Token>): Record
    requires StartsWithRecord(ts)
  {
    Record(ts[0].value, ts[1].value, ts[2].value, ts[3].value)
  }

  /** The records the read loop sees: quadruples up to the first one that
      does not extract completely. */
  function ParseRecords(ts: seq<Token>): seq<Record>
    decreases |ts|
  {
    if StartsWithRecord(ts) then [RecordAt(ts)] + ParseRecords(ts[4..]) else []
  }

  /** The read loop consumes four tokens per record: record j is the
      quadruple that starts at token 4j. */
  lemma {:induction false} ParseRecordsAt(ts: seq<Token>)
    ensures 4 * |ParseRecords(ts)| <= |ts|
    ensures forall j :: 0 <= j < |ParseRecords(ts)| ==>
              StartsWithRecord(ts[4 * j..]) && ParseRecords(ts)[j] == RecordAt(ts[4 * j..])
    decreases |ts|
  {
    if StartsWithRecord(ts) {
      var rest := ParseRecords(ts[4..]);
      var rs := [RecordAt(ts)] + rest;
      assert ParseRecords(ts) == rs;
      ParseRecordsAt(ts[4..]);
      forall j | 0 <= j < |rs|
        ensures StartsWithRecord(ts[4 * j..]) && rs[j] == RecordAt(ts[4 * j..])
      {
        if j == 0 {
          assert ts[4 * j..] == ts;
        } else {
          assert rs[j] == rest[j - 1];
          assert ts[4..][4 * (j - 1)..] == ts[4 * j..];
        }
      }
    }
  }

  /** The four tokens of one line of the table. */
  function RecordTokens(r: Record): seq<Token> {
    [Num(r.id), Num(r.voltage), Num(r.gain), Num(r.gainError)]
  }

  /** A well-formed table holding exactly the given records. */
  function Tokens(rs: seq<Record>): (ts: seq<Token>)
    ensures |ts| == 4 * |rs|
  {
    if rs == [] then [] else RecordTokens(rs[0]) + Tokens(rs[1..])
  }

  /** A complete line is read as one record. */
  lemma ParseOneRecord(r: Record, rest: seq<Token>)
    ensures ParseRecords(RecordTokens(r) + rest) == [r] + ParseRecords(rest)
  {
    var ts := RecordTokens(r) + rest;
    assert ts[0] == Num(r.id) && ts[1] == Num(r.voltage);
    assert ts[2] == Num(r.gain) && ts[3] == Num(r.gainError);
    assert ts[4..] == rest;
  }

  /** Records written out as a table are read back in order, and reading
      then carries on with what follows them. */
  lemma {:induction false} ParseTokens(rs: seq<Record>, tail: seq<Token>)
    ensures ParseRecords(Tokens(rs) + tail) == rs + ParseRecords(tail)
    decreases |rs|
  {
    if rs == [] {
      assert Tokens(rs) + tail == tail;
    } else {
      var rest := Tokens(rs[1..]) + tail;
      assert Tokens(rs) + tail == RecordTokens(rs[0]) + rest;
      ParseOneRecord(rs[0], rest);
      ParseTokens(rs[1..], tail);
      assert [rs[0]] + rs[1..] == rs;
    }
  }

  /** Reading stops at the first quadruple that does not extract: nothing
      after it is ever seen, whatever it holds. */
  lemma ParseStopsAtFailedRead(rs: seq<Record>, tail: seq<Token>)
    requires !StartsWithRecord(tail)
    ensures ParseRecords(Tokens(rs) + tail) == rs
  {
    ParseTokens(rs, tail);
    assert rs + [] == rs;
  }

  /** The records with the given PMT number, in input order. */
  function Matching(rs: seq<Record>, id: real): (ms: seq<Record>)
    ensures |ms| <= |rs|
  {
    if rs == [] then []
    else Matching(rs[..|rs| - 1], id) + (if rs[|rs| - 1].id == id then [rs[|rs| - 1]] else [])
  }

  /** The positions of the records with the given PMT number, increasing. */
  function MatchIndices(rs: seq<Record>, id: real): seq<nat>
  {
    if rs == [] then []
    else MatchIndices(rs[..|rs| - 1], id) + (if rs[|rs| - 1].id == id then [|rs| - 1] else [])
  }

  /** Match j is the record at position j of MatchIndices. */
  lemma {:induction false} MatchingAtIndices(rs: seq<Record>, id: real)
    ensures |MatchIndices(rs, id)| == |Matching(rs, id)|
    ensures forall j :: 0 <= j < |Matching(rs, id)| ==>
              MatchIndices(rs, id)[j] < |rs| && Matching(rs, id)[j] == rs[MatchIndices(rs, id)[j]]
    decreases |rs|
  {
    if rs != [] {
      var init := rs[..|rs| - 1];
      MatchingAtIndices(init, id);
      forall i | 0 <= i < |init| ensures rs[i] == init[i] { }
    }
  }

  /** The positions MatchIndices lists are increasing, so no record is taken
      twice and the input order is kept. */
  lemma {:induction false} MatchIndicesIncreasing(rs: seq<Record>, id: real)
    ensures forall j :: 0 <= j < |MatchIndices(rs, id)| ==> MatchIndices(rs, id)[j] < |rs|
    ensures forall j, j' :: 0 <= j < j' < |MatchIndices(rs, id)| ==>
              MatchIndices(rs, id)[j] < MatchIndices(rs, id)[j']
    decreases |rs|
  {
    if rs != [] {
      MatchIndicesIncreasing(rs[..|rs| - 1], id);
    }
  }

  /** A position is listed exactly when its record has the PMT number. */
  lemma {:induction false} MatchIndicesExact(rs: seq<Record>, id: real)
    ensures forall i :: 0 <= i < |rs| ==> (rs[i].id == id <==> i in MatchIndices(rs, id))
    decreases |rs|
  {
    if rs != [] {
      var init := rs[..|rs| - 1];
      MatchIndicesExact(init, id);
      MatchIndicesIncreasing(init, id);
      forall i | 0 <= i < |init| ensures rs[i] == init[i] { }
    }
  }

  /** Matching keeps exactly the records with that PMT number, each once and
      in the order the input has them. */
  lemma MatchingIsOrderedFilter(rs: seq<Record>, id: real)
    ensures |MatchIndices(rs, id)| == |Matching(rs, id)|
    ensures forall j :: 0 <= j < |Matching(rs, id)| ==>
              MatchIndices(rs, id)[j] < |rs| && Matching(rs, id)[j] == rs[MatchIndices(rs, id)[j]]
    ensures forall j, j' :: 0 <= j < j' < |MatchIndices(rs, id)| ==>
              MatchIndices(rs, id)[j] < MatchIndices(rs, id)[j']
    ensures forall i :: 0 <= i < |rs| ==> (rs[i].id == id <==> i in MatchIndices(rs, id))
  {
    MatchingAtIndices(rs, id);
    MatchIndicesIncreasing(rs, id);
    MatchIndicesExact(rs, id);
  }

  /** Appending one record extends the match list exactly when it matches. */
  lemma MatchingSnoc(rs: seq<Record>, r: Record, id: real)
    ensures Matching(rs + [r], id) == Matching(rs, id) + (if r.id == id then [r] else [])
  {
    assert (rs + [r])[..|rs|] == rs;
  }

  /** A table of one PMT only matches completely. */
  lemma {:induction false} MatchingAllSame(rs: seq<Record>, id: real)
    requires forall i :: 0 <= i < |rs| ==> rs[i].id == id
    ensures Matching(rs, id) == rs
    decreases |rs|
  {
    if rs != [] {
      MatchingAllSame(rs[..|rs| - 1], id);
    }
  }

  /** Matching distributes over concatenation of inputs. */
  lemma {:induction false} MatchingConcat(a: seq<Record>, b: seq<Record>, id: real)
    ensures Matching(a + b, id) == Matching(a, id) + Matching(b, id)
    decreases |b|
  {
    if b == [] {
      assert a + b == a;
    } else {
      var init := b[..|b| - 1];
      assert (a + b)[..|a + b| - 1] == a + init;
      MatchingConcat(a, init, id);
    }
  }

  // ---------------------------------------------------------------------------
  // The raw buffers of one PMT

  /** What the read loop leaves behind for one PMT: the filled prefixes of
      `voltage_raw`, `gain_raw` and `gain_error_raw`, all six slots of
      `voltage_error_raw`, and `num_data_points`. */
  datatype RawSample = RawSample(
    voltages: seq<Value>,
    voltageErrors: seq<Value>,
    gains: seq<Value>,
    gainErrors: seq<Value>,
    count: nat
  )

  predicate RawValid(raw: RawSample) {
    && raw.count <= Capacity
    && |raw.voltages| == raw.count
    && |raw.gains| == raw.count
    && |raw.gainErrors| == raw.count
    && |raw.voltageErrors| == Capacity
  }

  /** The buffers after reading the given matching records: the voltage as
      read, gain and gain error scaled by 10^7, voltage error untouched. */
  function RawOf(ms: seq<Record>): (raw: RawSample)
    requires |ms| <= Capacity
    ensures RawValid(raw) && raw.count == |ms|
  {
    RawSample(
      seq(|ms|, i requires 0 <= i < |ms| => Lit(ms[i].voltage)),
      seq(Capacity, i => VoltageError),
      seq(|ms|, i requires 0 <= i < |ms| => Scaled(Lit(ms[i].gain))),
      seq(|ms|, i requires 0 <= i < |ms| => Scaled(Lit(ms[i].gainError))),
      |ms|)
  }

  /** Either the buffers, or the report that a seventh matching record would
      have been written past their end. */
  datatype ReadResult = Overflow | Buffered(raw: RawSample)

  /** The slot the unchecked source loop writes each matching record into:
      the value of `num_data_points` before its increment. */
  function WriteSlots(rs: seq<Record>, id: real): (slots: seq<nat>)
    ensures |slots| == |Matching(rs, id)|
  {
    if rs == [] then []
    else
      var init := rs[..|rs| - 1];
      WriteSlots(init, id) + (if rs[|rs| - 1].id == id then [|Matching(init, id)|] else [])
  }

  /** The j-th matching record goes to slot j. */
  lemma {:induction false} WriteSlotsCount(rs: seq<Record>, id: real)
    ensures |WriteSlots(rs, id)| == |Matching(rs, id)|
    ensures forall j :: 0 <= j < |WriteSlots(rs, id)| ==> WriteSlots(rs, id)[j] == j
    decreases |rs|
  {
    if rs != [] {
      WriteSlotsCount(rs[..|rs| - 1], id);
    }
  }

  /** Seven records for PMT 1 make the unchecked loop write slot 6 of a
      six-slot buffer. */
  lemma SevenMatchesWritePastBuffer()
    ensures var rs := seq(7, i => Record(1.0, 1000.0 + 100.0 * i as real, 1.0, 0.1));
            ParseRecords(Tokens(rs)) == rs &&
            Capacity in WriteSlots(ParseRecords(Tokens(rs)), 1.0)
  {
    var rs := seq(7, i => Record(1.0, 1000.0 + 100.0 * i as real, 1.0, 0.1));
    ParseTokens(rs, []);
    assert Tokens(rs) + [] == Tokens(rs) && rs + [] == rs;
    WriteSlotsCount(rs, 1.0);
    MatchingAllSame(rs, 1.0);
    assert WriteSlots(rs, 1.0)[6] == 6;
  }

  /** Buffers holding the given matching records, slot by slot, are RawOf them. */
  lemma BufferedIsRawOf(vs: seq<Value>, ves: seq<Value>, gs: seq<Value>, ges: seq<Value>,
                        ms: seq<Record>)
    requires |ms| <= Capacity && |vs| == |gs| == |ges| == |ms| && |ves| == Capacity
    requires forall i :: 0 <= i < |ms| ==>
               vs[i] == Lit(ms[i].voltage) && gs[i] == Scaled(Lit(ms[i].gain)) && ges[i] == Scaled(Lit(ms[i].gainError))
    requires forall i :: 0 <= i < Capacity ==> ves[i] == VoltageError
    ensures RawSample(vs, ves, gs, ges, |ms|) == RawOf(ms)
  {
    var raw := RawOf(ms);
    assert vs == raw.voltages && ves == raw.voltageErrors;
    assert gs == raw.gains && ges == raw.gainErrors;
  }

  /** One successful extraction consumes four tokens and yields one record. */
  lemma ParseStep(ts: seq<Token>, pos: nat, seen: seq<Record>)
    requires pos <= |ts| && StartsWithRecord(ts[pos..])
    requires ParseRecords(ts) == seen + ParseRecords(ts[pos..])
    ensures ParseRecords(ts) == (seen + [RecordAt(ts[pos..])]) + ParseRecords(ts[pos + 4..])
  {
    assert ts[pos..][4..] == ts[pos + 4..];
  }

  /** When extraction fails at pos, the records read so far are all there are. */
  lemma ParseEnd(ts: seq<Token>, pos: nat, seen: seq<Record>)
    requires pos <= |ts| && !StartsWithRecord(ts[pos..])
    requires ParseRecords(ts) == seen + ParseRecords(ts[pos..])
    ensures ParseRecords(ts) == seen
  {
    assert seen + [] == seen;
  }

  /** Seven matches among the records read so far are more than the buffers
      hold, whatever the rest of the input holds. */
  lemma MatchesExceedCapacity(seen: seq<Record>, rest: seq<Record>, id: real)
    requires |Matching(seen, id)| == Capacity + 1
    ensures Capacity < |Matching(seen + rest, id)|
  {
    MatchingConcat(seen, rest, id);
  }

  /** The `while (input_file >> p >> v >> g >> ge)` loop of one fresh pass
      over the input: each record with the given PMT number goes into the
      next free slot. A matching record that finds every slot used ends the
      pass with overflow set instead of being written. */
  method ScanInput(input: seq<Token>, id: real,
                   voltageRaw: array<Value>, gainRaw: array<Value>, gainErrorRaw: array<Value>)
    returns (numDataPoints: nat, overflow: bool)
    requires voltageRaw.Length == Capacity && gainRaw.Length == Capacity && gainErrorRaw.Length == Capacity
    requires voltageRaw != gainRaw && voltageRaw != gainErrorRaw && gainRaw != gainErrorRaw
    modifies voltageRaw, gainRaw, gainErrorRaw
    ensures overflow <==> Capacity < |Matching(ParseRecords(input), id)|
    ensures !overflow ==> numDataPoints == |Matching(ParseRecords(input), id)|
    ensures !overflow ==>
              var ms := Matching(ParseRecords(input), id);
              forall i :: 0 <= i < numDataPoints ==>
                && voltageRaw[i] == Lit(ms[i].voltage)
                && gainRaw[i] == Scaled(Lit(ms[i].gain))
                && gainErrorRaw[i] == Scaled(Lit(ms[i].gainError))
  {
    numDataPoints := 0;
    var pos := 0;
    ghost var seen: seq<Record> := [];
    ghost var ms: seq<Record> := [];

    while StartsWithRecord(input[pos..])
      invariant 0 <= pos <= |input|
      invariant ParseRecords(input) == seen + ParseRecords(input[pos..])
      invariant ms == Matching(seen, id)
      invariant numDataPoints == |ms| <= Capacity
      invariant forall i :: 0 <= i < numDataPoints ==>
                  && voltageRaw[i] == Lit(ms[i].voltage)
                  && gainRaw[i] == Scaled(Lit(ms[i].gain))
                  && gainErrorRaw[i] == Scaled(Lit(ms[i].gainError))
      decreases |input| - pos
    {
      var rec := RecordAt(input[pos..]);
      ParseStep(input, pos, seen);
      pos := pos + 4;
      MatchingSnoc(seen, rec, id);
      seen := seen + [rec];
      if rec.id == id {
        ms := ms + [rec];
        if numDataPoints == Capacity {
          MatchesExceedCapacity(seen, ParseRecords(input[pos..]), id);
          return numDataPoints, true;
        }
        voltageRaw[numDataPoints] := Lit(rec.voltage);
        gainRaw[numDataPoints] := Scaled(Lit(rec.gain));
        gainErrorRaw[numDataPoints] := Scaled(Lit(rec.gainError));
        numDataPoints := numDataPoints + 1;
      }
    }
    ParseEnd(input, pos, seen);
    overflow := false;
  }

  /** The buffers of one PMT: `voltage_error_raw` starts as six 2s, the other
      three are filled by one pass over the input, with the capacity check
      the unchecked loop lacks (an Overflow instead of a seventh write). */
  method ReadChannel(input: seq<Token>, pmtNum: nat) returns (r: ReadResult)
    ensures r.Overflow? <==> Capacity < |Matching(ParseRecords(input), (pmtNum + 1) as real)|
    ensures r.Buffered? ==> r.raw == RawOf(Matching(ParseRecords(input), (pmtNum + 1) as real))
  {
    var id := (pmtNum + 1) as real;
    var voltageRaw := new Value[Capacity];
    var voltageErrorRaw := new Value[Capacity](i => VoltageError);
    var gainRaw := new Value[Capacity];
    var gainErrorRaw := new Value[Capacity];
    var numDataPoints, overflow := ScanInput(input, id, voltageRaw, gainRaw, gainErrorRaw);
    if overflow {
      return Overflow;
    }
    ghost var ms := Matching(ParseRecords(input), id);
    BufferedIsRawOf(voltageRaw[..numDataPoints], voltageErrorRaw[..],
                    gainRaw[..numDataPoints], gainErrorRaw[..numDataPoints], ms);
    r := Buffered(RawSample(voltageRaw[..numDataPoints], voltageErrorRaw[..],
                            gainRaw[..numDataPoints], gainErrorRaw[..numDataPoints], numDataPoints));
  }
}
