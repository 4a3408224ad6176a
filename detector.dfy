/**
 * The real-time detector (`ids_l4s.py`): the parse of one line of the capture
 * tool's five-field output, the `current_stats` accumulator it updates in
 * place, the eight flow features of a closed window, the classifier's verdict
 * and the window-boundary loop of `start_ids`.
 *
 * The five fields of a line are, in order: epoch timestamp, frame length, ECN
 * codepoint, TCP CWR flag and TCP window size.
 */
module Detector {
  import opened Wrappers
  import opened Text
  import opened Ecn
  import opened Stats

  /** `WINDOW_SIZE`: seconds between two decisions. */
  const WindowSize: real := 1.0

  /** The feature columns the classifier was trained on, in training order (`train_model.py`). */
  const TrainingFeatures: seq<string> :=
    ["flow_throughput_bps", "ratio_ect1", "ratio_ce", "flag_cwr", "ratio_cwr",
     "tcp_win_mean", "iat_mean", "pkt_len_mean"]

  /** One accepted packet; `cwr` is whether the CWR field was exactly "1". */
  datatype PacketRecord = PacketRecord(ts: real, length: int, ecn: nat, cwr: bool, window: nat)

  // ---------------------------------------------------------------- fields

  /**
   * The lenient ECN parse: a `0x` field is read as hexadecimal (and raises when
   * it is malformed), a digit string as decimal, and anything else is 0.
   */
  function ParseMark(f: string): (r: Option<nat>)
    ensures r.None? <==> StartsWith(f, "0x") && ParseHexPrefixed(f).None?
    ensures !StartsWith(f, "0x") && !IsDigits(f) ==> r == Some(0)
  {
    if StartsWith(f, "0x") then ParseHexPrefixed(f)
    else if IsDigits(f) then Some(DigitsValue(f))
    else Some(0)
  }

  /** `int(win_val) if win_val.isdigit() else 0`. */
  function ParseWindow(f: string): nat {
    if IsDigits(f) then DigitsValue(f) else 0
  }

  /**
   * The fields after `line.strip().split(',')`. Fewer than five are ignored;
   * otherwise the timestamp, the length and a `0x` ECN field can raise, and all
   * of them are converted before the first update.
   */
  function ParsePacketFields(cols: seq<string>): (r: Option<PacketRecord>)
    ensures |cols| < 5 ==> r.None?
    ensures r.Some? <==> |cols| >= 5 && ParseFloat(cols[0]).Some? && ParseInt(cols[1]).Some?
                         && ParseMark(cols[2]).Some?
  {
    if |cols| < 5 then None
    else Assemble(ParseFloat(cols[0]), ParseInt(cols[1]), ParseMark(cols[2]), cols[3] == "1",
                  ParseWindow(cols[4]))
  }

  /** The record of a line whose conversions have been made; None when any of them raised. */
  function Assemble(ts: Option<real>, length: Option<int>, ecn: Option<nat>, cwr: bool, window: nat)
    : (r: Option<PacketRecord>)
    ensures r.Some? <==> ts.Some? && length.Some? && ecn.Some?
  {
    if ts.Some? && length.Some? && ecn.Some? then
      Some(PacketRecord(ts.value, length.value, ecn.value, cwr, window))
    else None
  }

  function ParsePacketLine(line: string): Option<PacketRecord> {
    ParsePacketFields(Split(Strip(line), ','))
  }

  /** What an accepted line records: each number from its field, CWR as "is exactly 1", the lenient window. */
  lemma {:induction false} AcceptedPacketFields(cols: seq<string>)
    requires ParsePacketFields(cols).Some?
    ensures var r := ParsePacketFields(cols).value;
            && r.ts == ParseFloat(cols[0]).value
            && r.length == ParseInt(cols[1]).value
            && r.ecn == ParseMark(cols[2]).value
            && (r.cwr <==> cols[3] == "1")
            && r.window == ParseWindow(cols[4])
  {
  }

  /** A `0x` ECN field is read as hexadecimal. */
  lemma {:induction false} MarkHex(h: string)
    requires |h| > 0 && AllHexDigits(h)
    ensures ParseMark("0x" + h) == Some(HexValue(h))
  {
    var f := "0x" + h;
    assert StartsWith(f, "0x") && f[2..] == h;
    HexFieldUnstripped(f);
  }

  /** A decimal ECN field is read as decimal. */
  lemma {:induction false} MarkDecimal(n: nat)
    ensures ParseMark(ShowNat(n)) == Some(n)
  {
    var s := ShowNat(n);
    assert !StartsWith(s, "0x") by {
      if |s| >= 2 {
        assert IsDigit(s[1]);
      }
    }
    DigitsValueShowNat(n);
  }

  /** `0x` with no digit after it raises, and the line is dropped. */
  lemma {:induction false} MarkBareHexPrefix()
    ensures ParseMark("0x") == None
  {
    assert StartsWith("0x", "0x");
    StripNoSpace("0x");
  }

  /** An empty or signed ECN field does not drop the line: it is read as Not-ECT. */
  lemma {:induction false} MarkLenient()
    ensures ParseMark("") == Some(NotEct)
    ensures ParseMark("-1") == Some(NotEct)
  {
    var signed := "-1";
    assert signed[0] == '-' && !IsDigit(signed[0]);
    assert signed[..2][0] != "0x"[0];
    assert !IsDigits(signed);
  }

  /** A written window size is read back; an empty or signed one is 0. */
  lemma {:induction false} WindowField(n: nat)
    ensures ParseWindow(ShowNat(n)) == n
    ensures ParseWindow("") == 0 && ParseWindow("-" + ShowNat(n)) == 0
  {
    DigitsValueShowNat(n);
    assert !IsDigit(("-" + ShowNat(n))[0]);
  }

  // ---------------------------------------------------------------- round trip

  /** The five fields the capture tool writes for a packet; a missing window is an empty field. */
  function PacketFields(tsWhole: string, tsFrac: string, length: nat, ecn: nat, cwr: string,
                        window: Option<nat>): (fields: seq<string>)
    ensures |fields| == 5
  {
    [Decimal(tsWhole, tsFrac), ShowNat(length), ShowNat(ecn), cwr,
     if window.Some? then ShowNat(window.value) else ""]
  }

  /**
   * A line as the capture tool writes it is read back as the values it was
   * written from; the CWR flag is set only by the text "1" and a missing
   * window reads as 0.
   */
  lemma {:induction false} PacketLineRoundTrip(tsWhole: string, tsFrac: string, length: nat, ecn: nat, cwr: string,
                            window: Option<nat>)
    requires IsDigits(tsWhole) && AllDigits(tsFrac) && ',' !in cwr
    ensures ParsePacketLine(Join(PacketFields(tsWhole, tsFrac, length, ecn, cwr, window), ','))
            == Some(PacketRecord(FixedPointValue(tsWhole, tsFrac), length, ecn, cwr == "1",
                                 if window.Some? then window.value else 0))
  {
    var fields := PacketFields(tsWhole, tsFrac, length, ecn, cwr, window);
    assert forall i :: 0 <= i < |fields| ==> ',' !in fields[i] by {
      DecimalCommaFree(tsWhole, tsFrac);
      ShowNatCommaFree(length);
      ShowNatCommaFree(ecn);
      if window.Some? {
        ShowNatCommaFree(window.value);
      }
    }
    assert fields[0][0] == tsWhole[0] && IsDigit(tsWhole[0]);
    assert |fields[4]| == 0 || IsDigit(fields[4][|fields[4]| - 1]);
    JoinUnstripped(fields, ',');
    SplitJoin(fields, ',');
    PacketFieldsRoundTrip(tsWhole, tsFrac, length, ecn, cwr, window);
  }

  lemma {:induction false} PacketFieldsRoundTrip(tsWhole: string, tsFrac: string, length: nat, ecn: nat, cwr: string,
                              window: Option<nat>)
    requires IsDigits(tsWhole) && AllDigits(tsFrac)
    ensures ParsePacketFields(PacketFields(tsWhole, tsFrac, length, ecn, cwr, window))
            == Some(PacketRecord(FixedPointValue(tsWhole, tsFrac), length, ecn, cwr == "1",
                                 if window.Some? then window.value else 0))
  {
    var w := if window.Some? then ShowNat(window.value) else "";
    assert ParseFloat(Decimal(tsWhole, tsFrac)) == Some(FixedPointValue(tsWhole, tsFrac)) by {
      ParseFloatFixedPoint(tsWhole, tsFrac);
    }
    assert ParseInt(ShowNat(length)) == Some(length) by {
      ParseIntShowNat(length);
    }
    assert ParseMark(ShowNat(ecn)) == Some(ecn) by {
      MarkDecimal(ecn);
    }
    assert ParseWindow(w) == if window.Some? then window.value else 0 by {
      if window.Some? {
        WindowField(window.value);
      }
    }
    PacketFieldsAccepted(Decimal(tsWhole, tsFrac), ShowNat(length), ShowNat(ecn), cwr, w,
                         FixedPointValue(tsWhole, tsFrac), length, ecn);
  }

  lemma {:induction false} PacketFieldsAccepted(c0: string, c1: string, c2: string, c3: string, c4: string,
                             ts: real, length: int, ecn: nat)
    requires ParseFloat(c0) == Some(ts) && ParseInt(c1) == Some(length) && ParseMark(c2) == Some(ecn)
    ensures ParsePacketFields([c0, c1, c2, c3, c4])
            == Some(PacketRecord(ts, length, ecn, c3 == "1", ParseWindow(c4)))
  {
  }

  // ---------------------------------------------------------------- current_stats

  /** The lists and counters of `current_stats`, as a value. */
  datatype PacketStats = PacketStats(
    timestamps: seq<real>, lengths: seq<int>, ceMarks: nat, ect1Marks: nat, cwrFlags: nat,
    tcpWindows: seq<nat>, packetCount: nat)

  /** `reset_stats()`: every list empty and every counter 0. */
  const EmptyStats: PacketStats := PacketStats([], [], 0, 0, 0, [], 0)

  /** The updates one accepted packet makes to `current_stats`. */
  function Record(s: PacketStats, r: PacketRecord): (s': PacketStats)
    ensures s'.timestamps == s.timestamps + [r.ts] && s'.lengths == s.lengths + [r.length]
    ensures s'.tcpWindows == s.tcpWindows + [r.window] && s'.packetCount == s.packetCount + 1
    ensures s'.ceMarks == s.ceMarks + (if r.ecn == Ce then 1 else 0)
    ensures s'.ect1Marks == s.ect1Marks + (if r.ecn == Ect1 then 1 else 0)
    ensures s'.cwrFlags == s.cwrFlags + (if r.cwr then 1 else 0)
  {
    var marks := MarkIncrements(r.ecn);
    PacketStats(s.timestamps + [r.ts], s.lengths + [r.length], s.ceMarks + marks.0, s.ect1Marks + marks.1,
                s.cwrFlags + (if r.cwr then 1 else 0), s.tcpWindows + [r.window], s.packetCount + 1)
  }

  /** What every `current_stats` reachable from an empty one satisfies. */
  predicate Consistent(s: PacketStats) {
    && |s.timestamps| == |s.lengths| == |s.tcpWindows| == s.packetCount
    && s.cwrFlags <= s.packetCount
    && s.ceMarks + s.ect1Marks <= s.packetCount
  }

  /** A parse result applied to the stats: a dropped line (None) leaves them exactly as they were. */
  function Apply(s: PacketStats, o: Option<PacketRecord>): (s': PacketStats)
    ensures o.None? ==> s' == s
    ensures o.Some? ==> s' == Record(s, o.value)
    ensures Consistent(s) ==> Consistent(s')
  {
    match o
    case None => s
    case Some(r) => Record(s, r)
  }

  /** The stats after the parse results `os` have been applied in order. */
  function IngestAll(s: PacketStats, os: seq<Option<PacketRecord>>): (s': PacketStats)
    ensures Consistent(s) ==> Consistent(s')
  {
    if |os| == 0 then s else Apply(IngestAll(s, os[..|os| - 1]), os[|os| - 1])
  }

  lemma {:induction false} IngestAllAppend(s: PacketStats, os: seq<Option<PacketRecord>>, o: Option<PacketRecord>)
    ensures IngestAll(s, os + [o]) == Apply(IngestAll(s, os), o)
  {
    assert (os + [o])[..|os|] == os;
  }

  // ---------------------------------------------------------------- reference summary

  function Timestamps(recs: seq<PacketRecord>): (s: seq<real>)
    ensures |s| == |recs| && forall i :: 0 <= i < |recs| ==> s[i] == recs[i].ts
  {
    seq(|recs|, i requires 0 <= i < |recs| => recs[i].ts)
  }

  function Lengths(recs: seq<PacketRecord>): (s: seq<int>)
    ensures |s| == |recs| && forall i :: 0 <= i < |recs| ==> s[i] == recs[i].length
  {
    seq(|recs|, i requires 0 <= i < |recs| => recs[i].length)
  }

  function Windows(recs: seq<PacketRecord>): (s: seq<nat>)
    ensures |s| == |recs| && forall i :: 0 <= i < |recs| ==> s[i] == recs[i].window
  {
    seq(|recs|, i requires 0 <= i < |recs| => recs[i].window)
  }

  /** How many of the records satisfy `p`. */
  function CountWhere(recs: seq<PacketRecord>, p: PacketRecord -> bool): (n: nat)
    ensures n <= |recs|
  {
    if |recs| == 0 then 0 else CountWhere(recs[..|recs| - 1], p) + (if p(recs[|recs| - 1]) then 1 else 0)
  }

  predicate CeMarked(r: PacketRecord) { r.ecn == Ce }
  predicate Ect1Marked(r: PacketRecord) { r.ecn == Ect1 }
  predicate CwrSet(r: PacketRecord) { r.cwr }

  /** The stats of a list of accepted packets, field by field, without reference to the update order. */
  function Summary(recs: seq<PacketRecord>): PacketStats {
    PacketStats(Timestamps(recs), Lengths(recs), CountWhere(recs, CeMarked), CountWhere(recs, Ect1Marked),
                CountWhere(recs, CwrSet), Windows(recs), |recs|)
  }

  lemma {:induction false} RecordSummary(recs: seq<PacketRecord>, r: PacketRecord)
    ensures Record(Summary(recs), r) == Summary(recs + [r])
  {
    var t := recs + [r];
    var v := Record(Summary(recs), r);
    var s := Summary(t);
    assert v.timestamps == s.timestamps && v.lengths == s.lengths && v.tcpWindows == s.tcpWindows;
    assert v.ceMarks == s.ceMarks && v.ect1Marks == s.ect1Marks && v.cwrFlags == s.cwrFlags by {
      assert t[..|recs|] == recs;
    }
  }

  /**
   * Applying the parse results to empty stats gives the summary of the accepted
   * records: their timestamps, lengths and windows in arrival order and the
   * counts of CE, ECT(1) and CWR packets.
   */
  lemma {:induction false} IngestAllSummary(os: seq<Option<PacketRecord>>)
    ensures IngestAll(EmptyStats, os) == Summary(Accepted(os))
  {
    if |os| == 0 {
      assert Summary([]) == EmptyStats;
    } else {
      var p := os[..|os| - 1];
      IngestAllSummary(p);
      if os[|os| - 1].Some? {
        RecordSummary(Accepted(p), os[|os| - 1].value);
      }
    }
  }

  /** The stats of any list of accepted packets are consistent. */
  lemma {:induction false} SummaryConsistent(recs: seq<PacketRecord>)
    ensures Consistent(Summary(recs))
  {
    CountMarksBound(recs);
  }

  /** The stats `reset_stats` installs are those of no packets at all, and they are consistent. */
  lemma {:induction false} EmptyStatsEmpty()
    ensures EmptyStats == Summary([])
    ensures Consistent(EmptyStats) && EmptyStats.packetCount == 0
  {
    assert Summary([]) == EmptyStats;
    SummaryConsistent([]);
  }

  lemma {:induction false} CountMarksBound(recs: seq<PacketRecord>)
    ensures CountWhere(recs, CeMarked) + CountWhere(recs, Ect1Marked) <= |recs|
  {
    if |recs| > 0 {
      CountMarksBound(recs[..|recs| - 1]);
    }
  }

  // ---------------------------------------------------------------- features

  /** The feature record of `start_ids`, one field per DataFrame column. */
  datatype FlowFeatures = FlowFeatures(
    flowThroughputBps: real, ratioEct1: real, ratioCe: real, flagCwr: nat, ratioCwr: real,
    tcpWinMean: real, iatMean: real, pktLenMean: real)

  /** The features of a window with at least one packet. */
  function Features(s: PacketStats): FlowFeatures
    requires Consistent(s) && s.packetCount > 0
  {
    var n := s.packetCount as real;
    FlowFeatures(
      SumInt(s.lengths) as real * 8.0 / WindowSize,
      s.ect1Marks as real / n, s.ceMarks as real / n, s.cwrFlags, s.cwrFlags as real / n,
      if |s.tcpWindows| > 0 then MeanInt(s.tcpWindows) else 0.0,
      IatMean(s.timestamps, s.packetCount),
      MeanInt(s.lengths))
  }

  /** `iat_mean`: the mean gap of the sorted timestamps when there are two packets or more, else 0. */
  function IatMean(ts: seq<real>, count: nat): real
    requires count > 1 ==> |ts| == count
  {
    if count > 1 then Mean(Gaps(Sort(ts))) else 0.0
  }

  /** The three mark ratios are fractions, and the ECT(1) and CE ratios together are at most 1. */
  lemma {:induction false} FeatureRatios(s: PacketStats)
    requires Consistent(s) && s.packetCount > 0
    ensures var f := Features(s);
            && 0.0 <= f.ratioEct1 <= 1.0 && 0.0 <= f.ratioCe <= 1.0 && 0.0 <= f.ratioCwr <= 1.0
            && f.ratioEct1 + f.ratioCe <= 1.0
            && f.flagCwr == s.cwrFlags
  {
    var n := s.packetCount;
    RatioBounds(s.ect1Marks, s.ceMarks, n);
    RatioBounds(s.cwrFlags, 0, n);
  }

  lemma {:induction false} RatioBounds(a: nat, b: nat, n: nat)
    requires n > 0 && a + b <= n
    ensures 0.0 <= a as real / n as real && 0.0 <= b as real / n as real
    ensures a as real / n as real + b as real / n as real <= 1.0
    ensures a as real / n as real <= 1.0
  {
    var x, y, m := a as real, b as real, n as real;
    assert 0.0 <= x / m <= 1.0 by {
      DivideBounds(0.0, x, 1.0, n);
    }
    assert 0.0 <= y / m by {
      DivideBounds(0.0, y, 1.0, n);
    }
    assert (x + y) / m <= 1.0 by {
      DivideBounds(0.0, x + y, 1.0, n);
    }
    assert x / m + y / m == (x + y) / m by {
      SplitQuotient(x, y, m);
    }
  }

  lemma {:induction false} SplitQuotient(x: real, y: real, m: real)
    requires m > 0.0
    ensures x / m + y / m == (x + y) / m
  {
  }

  /**
   * `iat_mean` is the mean gap of the sorted timestamps: the spread of the
   * timestamps over count - 1, never negative, and 0 for a single packet.
   */
  lemma {:induction false} IatMeanSpread(ts: seq<real>, count: nat)
    requires count > 0 && |ts| == count
    ensures count > 1 ==> IatMean(ts, count) == (Max(ts) - Min(ts)) / (count - 1) as real
    ensures IatMean(ts, count) >= 0.0
    ensures count == 1 ==> IatMean(ts, count) == 0.0
  {
    if count > 1 {
      SortedMeanGap(ts);
    }
  }

  /**
   * The volume features: eight times the bytes of the window per second, the
   * mean frame length, and the mean window over every packet, a missing window
   * counting as 0, so never negative.
   */
  lemma {:induction false} FeatureVolumes(s: PacketStats)
    requires Consistent(s) && s.packetCount > 0
    ensures Features(s).flowThroughputBps == 8.0 * SumInt(s.lengths) as real
    ensures Features(s).pktLenMean == SumInt(s.lengths) as real / s.packetCount as real
    ensures Features(s).tcpWinMean == SumInt(s.tcpWindows) as real / s.packetCount as real
    ensures Features(s).tcpWinMean >= 0.0
  {
    NatSumNonNegative(s.tcpWindows);
  }

  lemma {:induction false} NatSumNonNegative(s: seq<nat>)
    ensures SumInt(s) >= 0
  {
    if |s| > 0 {
      NatSumNonNegative(s[..|s| - 1]);
    }
  }

  /** Two ECT(1), one CE and one Not-ECT packet: ratio_ect1 is 0.5 and ratio_ce 0.25. */
  lemma {:induction false} FeatureRatiosExample()
    ensures var p := (e: nat) => PacketRecord(0.0, 100, e, false, 0);
            var s := Record(Record(Record(Record(EmptyStats, p(Ect1)), p(Ect1)), p(Ce)), p(NotEct));
            Features(s).ratioEct1 == 0.5 && Features(s).ratioCe == 0.25
  {
  }

  /** The DataFrame row handed to the classifier: column names with their values. */
  type FeatureRow = seq<(string, real)>

  function FeatureFrame(f: FlowFeatures): (row: FeatureRow)
    ensures |row| == |TrainingFeatures|
  {
    [("flow_throughput_bps", f.flowThroughputBps), ("ratio_ect1", f.ratioEct1), ("ratio_ce", f.ratioCe),
     ("flag_cwr", f.flagCwr as real), ("ratio_cwr", f.ratioCwr), ("tcp_win_mean", f.tcpWinMean),
     ("iat_mean", f.iatMean), ("pkt_len_mean", f.pktLenMean)]
  }

  /** The row's columns are the training features, in training order. */
  lemma {:induction false} FrameColumns(f: FlowFeatures)
    ensures forall i :: 0 <= i < |TrainingFeatures| ==> FeatureFrame(f)[i].0 == TrainingFeatures[i]
  {
    var row := FeatureFrame(f);
    assert row[0].0 == TrainingFeatures[0] && row[1].0 == TrainingFeatures[1];
    assert row[2].0 == TrainingFeatures[2] && row[3].0 == TrainingFeatures[3];
    assert row[4].0 == TrainingFeatures[4] && row[5].0 == TrainingFeatures[5];
    assert row[6].0 == TrainingFeatures[6] && row[7].0 == TrainingFeatures[7];
  }

  // ---------------------------------------------------------------- decision

  /** What a window boundary produces. */
  datatype Outcome =
    | Skipped                                  // no packet in the window: no decision
    | Alert(ratioCe: real, cwrFlags: nat)      // prediction 1
    | Normal(throughputMbps: real)             // any other prediction
    | PredictionFailed                         // `clf.predict` raised

  /**
   * The decision at a boundary. `classify` stands for `clf.predict` on the
   * one-row frame; None is a prediction that raised.
   */
  function Decide(s: PacketStats, classify: FeatureRow -> Option<int>): (o: Outcome)
    requires Consistent(s)
    ensures o.Skipped? <==> s.packetCount == 0
    ensures s.packetCount > 0 ==> (o.Alert? <==> classify(FeatureFrame(Features(s))) == Some(1))
    ensures s.packetCount > 0 ==> (o.PredictionFailed? <==> classify(FeatureFrame(Features(s))).None?)
    ensures o.Alert? ==> o.ratioCe == Features(s).ratioCe && o.cwrFlags == s.cwrFlags
    ensures o.Normal? ==> o.throughputMbps == Features(s).flowThroughputBps / 1000000.0
  {
    if s.packetCount == 0 then Skipped
    else
      var f := Features(s);
      match classify(FeatureFrame(f))
      case None => PredictionFailed
      case Some(prediction) =>
        if prediction == 1 then Alert(f.ratioCe, s.cwrFlags) else Normal(f.flowThroughputBps / 1000000.0)
  }

  // ---------------------------------------------------------------- the loop

  /** One line of capture output and the clock reading taken right after it was processed. */
  datatype Reading = Reading(line: string, now: real)

  /** A reading whose line has been parsed. */
  datatype Sample = Sample(packet: Option<PacketRecord>, now: real)

  /** The state of `start_ids` between two lines. */
  datatype Monitor = Monitor(stats: PacketStats, lastCheck: real, outcomes: seq<Outcome>)

  /** `last_check = time.time()` and `reset_stats()` before the first line. */
  function Start(now: real): Monitor {
    Monitor(EmptyStats, now, [])
  }

  /**
   * One iteration: the line is applied (a dropped line changes nothing), then
   * the boundary is checked; at a boundary the decision is made on the stats as
   * they are, the stats are reset and `last_check` becomes `now`.
   */
  function Observe(m: Monitor, x: Sample, classify: FeatureRow -> Option<int>): (m': Monitor)
    requires Consistent(m.stats)
    ensures Consistent(m'.stats)
    ensures x.now - m.lastCheck >= WindowSize ==>
              m' == Monitor(EmptyStats, x.now, m.outcomes + [Decide(Apply(m.stats, x.packet), classify)])
    ensures x.now - m.lastCheck < WindowSize ==> m' == Monitor(Apply(m.stats, x.packet), m.lastCheck, m.outcomes)
  {
    var s := Apply(m.stats, x.packet);
    if x.now - m.lastCheck >= WindowSize then Monitor(EmptyStats, x.now, m.outcomes + [Decide(s, classify)])
    else Monitor(s, m.lastCheck, m.outcomes)
  }

  /** The state after the samples, in order; at most one outcome per sample, and earlier outcomes are kept. */
  function Run(m: Monitor, xs: seq<Sample>, classify: FeatureRow -> Option<int>): (m': Monitor)
    requires Consistent(m.stats)
    ensures Consistent(m'.stats)
    ensures |m.outcomes| <= |m'.outcomes| <= |m.outcomes| + |xs| && m'.outcomes[..|m.outcomes|] == m.outcomes
  {
    if |xs| == 0 then m else Observe(Run(m, xs[..|xs| - 1], classify), xs[|xs| - 1], classify)
  }

  lemma {:induction false} RunAppend(m: Monitor, xs: seq<Sample>, x: Sample, classify: FeatureRow -> Option<int>)
    requires Consistent(m.stats)
    ensures Run(m, xs + [x], classify) == Observe(Run(m, xs, classify), x, classify)
  {
    assert (xs + [x])[..|xs|] == xs;
  }

  /** The parse results of the readings, with their clock readings. */
  function Samples(rs: seq<Reading>): (xs: seq<Sample>)
    ensures |xs| == |rs|
  {
    if |rs| == 0 then [] else Samples(rs[..|rs| - 1]) + [Sample(ParsePacketLine(rs[|rs| - 1].line), rs[|rs| - 1].now)]
  }

  lemma {:induction false} SamplesStep(rs: seq<Reading>, i: nat)
    requires i < |rs|
    ensures Samples(rs[..i + 1]) == Samples(rs[..i]) + [Sample(ParsePacketLine(rs[i].line), rs[i].now)]
  {
    var p := rs[..i + 1];
    assert p[..i] == rs[..i] && p[i] == rs[i];
  }

  function Packets(xs: seq<Sample>): (os: seq<Option<PacketRecord>>)
    ensures |os| == |xs| && forall i :: 0 <= i < |xs| ==> os[i] == xs[i].packet
  {
    seq(|xs|, i requires 0 <= i < |xs| => xs[i].packet)
  }

  /** Whether every clock reading is less than a window after `last`. */
  predicate Quiet(last: real, xs: seq<Sample>) {
    forall i :: 0 <= i < |xs| ==> xs[i].now - last < WindowSize
  }

  /** Within a window the stats keep accumulating and nothing else changes. */
  lemma {:induction false} QuietRun(m: Monitor, xs: seq<Sample>, classify: FeatureRow -> Option<int>)
    requires Consistent(m.stats) && Quiet(m.lastCheck, xs)
    ensures Run(m, xs, classify) == Monitor(IngestAll(m.stats, Packets(xs)), m.lastCheck, m.outcomes)
  {
    if |xs| > 0 {
      var p := xs[..|xs| - 1];
      assert Quiet(m.lastCheck, p) by {
        forall i | 0 <= i < |p| ensures p[i].now - m.lastCheck < WindowSize {
          assert p[i] == xs[i];
        }
      }
      QuietRun(m, p, classify);
      assert Packets(xs) == Packets(p) + [xs[|xs| - 1].packet];
      IngestAllAppend(m.stats, Packets(p), xs[|xs| - 1].packet);
    }
  }

  /**
   * The first boundary: from the start, a run of samples inside the window
   * followed by one at or past it makes exactly one decision, on the stats of
   * every packet so far (the last one included), which are the summary of the
   * accepted ones, and starts a new window at that reading's clock.
   */
  lemma {:induction false} FirstDecision(start: real, xs: seq<Sample>, x: Sample, classify: FeatureRow -> Option<int>)
    requires Quiet(start, xs) && x.now - start >= WindowSize
    ensures Run(Start(start), xs + [x], classify)
            == Monitor(EmptyStats, x.now, [Decide(IngestAll(EmptyStats, Packets(xs + [x])), classify)])
    ensures IngestAll(EmptyStats, Packets(xs + [x])) == Summary(Accepted(Packets(xs + [x])))
  {
    RunAppend(Start(start), xs, x, classify);
    QuietRun(Start(start), xs, classify);
    assert Packets(xs + [x]) == Packets(xs) + [x.packet];
    IngestAllAppend(EmptyStats, Packets(xs), x.packet);
    IngestAllSummary(Packets(xs + [x]));
  }

  /** `current_stats`: the accumulator `process_packet_line` updates in place and `reset_stats` empties. */
  class CurrentStats {
    var timestamps: seq<real>
    var lengths: seq<int>
    var ceMarks: nat
    var ect1Marks: nat
    var cwrFlags: nat
    var tcpWindows: seq<nat>
    var packetCount: nat

    function Value(): PacketStats
      reads this
    {
      PacketStats(timestamps, lengths, ceMarks, ect1Marks, cwrFlags, tcpWindows, packetCount)
    }

    /** The module-level initial value. */
    constructor()
      ensures Value() == EmptyStats
    {
      timestamps, lengths, tcpWindows := [], [], [];
      ceMarks, ect1Marks, cwrFlags, packetCount := 0, 0, 0, 0;
    }

    method Reset()
      modifies this
      ensures Value() == EmptyStats
    {
      timestamps, lengths, tcpWindows := [], [], [];
      ceMarks, ect1Marks, cwrFlags, packetCount := 0, 0, 0, 0;
    }

    /** `process_packet_line`: every conversion first, and only an accepted line is recorded. */
    method ProcessPacketLine(line: string)
      modifies this
      ensures Value() == Apply(old(Value()), ParsePacketLine(line))
    {
      var o := ParsePacketLine(line);
      if o.Some? {
        Add(o.value);
      }
    }

    /** The updates for one accepted packet, in the order the source makes them. */
    method Add(r: PacketRecord)
      modifies this
      ensures Value() == Record(old(Value()), r)
    {
      timestamps := timestamps + [r.ts];
      lengths := lengths + [r.length];
      packetCount := packetCount + 1;
      tcpWindows := tcpWindows + [r.window];
      if r.ecn == Ce {
        ceMarks := ceMarks + 1;
      } else if r.ecn == Ect1 {
        ect1Marks := ect1Marks + 1;
      }
      cwrFlags := cwrFlags + (if r.cwr then 1 else 0);
    }
  }

  /**
   * `start_ids`: every line is processed, then the clock is read and the
   * boundary checked. Returns the final `last_check` and the outcomes of every
   * boundary in order.
   */
  method StartIds(stats: CurrentStats, readings: seq<Reading>, start: real, classify: FeatureRow -> Option<int>)
    returns (lastCheck: real, outcomes: seq<Outcome>)
    modifies stats
    ensures Monitor(stats.Value(), lastCheck, outcomes) == Run(Start(start), Samples(readings), classify)
  {
    lastCheck := start;
    stats.Reset();
    outcomes := [];
    var i := 0;
    while i < |readings|
      invariant 0 <= i <= |readings|
      invariant Monitor(stats.Value(), lastCheck, outcomes) == Run(Start(start), Samples(readings[..i]), classify)
    {
      lastCheck, outcomes := Poll(stats, lastCheck, outcomes, readings[i], classify);
      SamplesStep(readings, i);
      RunAppend(Start(start), Samples(readings[..i]), Sample(ParsePacketLine(readings[i].line), readings[i].now), classify);
      i := i + 1;
    }
    assert readings[..i] == readings;
  }

  /** One iteration of the loop of `start_ids`, on the reading of one line and the clock after it. */
  method Poll(stats: CurrentStats, lastCheck: real, outcomes: seq<Outcome>, reading: Reading,
              classify: FeatureRow -> Option<int>)
    returns (lastCheck': real, outcomes': seq<Outcome>)
    requires Consistent(stats.Value())
    modifies stats
    ensures Monitor(stats.Value(), lastCheck', outcomes')
            == Observe(Monitor(old(stats.Value()), lastCheck, outcomes),
                       Sample(ParsePacketLine(reading.line), reading.now), classify)
  {
    stats.ProcessPacketLine(reading.line);
    lastCheck', outcomes' := lastCheck, outcomes;
    var now := reading.now;
    if now - lastCheck >= WindowSize {
      var decision := Decide(stats.Value(), classify);
      outcomes' := outcomes + [decision];
      stats.Reset();
      lastCheck' := now;
    }
  }
}
