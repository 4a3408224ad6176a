/**
 * The capture side of the collector (`coleta_metrics.py`): the parse of one
 * line of the capture tool's comma-separated output and the per-window
 * accumulator `MetricsWindow` that every accepted line updates in place.
 *
 * The seven fields of a line are, in order: epoch timestamp, source address,
 * frame length, TCP payload length, ACK RTT in seconds, ECN codepoint and the
 * retransmission flag.
 */
module Capture {
  import opened Wrappers
  import opened Text
  import opened Ecn
  import opened Stats

  /** `ATTACKER_IP`: the source whose bytes make a window an attack window. */
  const AttackerIp: string := "192.168.54.10"

  /** One accepted packet; `rtt` is in milliseconds and None when the field was empty. */
  datatype CaptureRecord = CaptureRecord(
    ts: real, src: string, pktLen: int, tcpLen: int, rtt: Option<real>, ecn: int, retrans: bool)

  // ---------------------------------------------------------------- fields

  /** `int(f) if f else 0`: an empty length field counts as 0. */
  function ParseLength(f: string): (r: Option<int>)
    ensures f == "" ==> r == Some(0)
    ensures f != "" ==> r == ParseInt(f)
  {
    if f == "" then Some(0) else ParseInt(f)
  }

  /** `float(f) * 1000 if f else None`: seconds to milliseconds; an empty field is no sample. */
  function ParseRtt(f: string): (r: Option<Option<real>>)
    ensures f == "" ==> r == Some(None)
    ensures f != "" ==> (r.Some? <==> ParseFloat(f).Some?)
    ensures f != "" && r.Some? ==> r.value == Some(ParseFloat(f).value * 1000.0)
  {
    if f == "" then Some(None)
    else
      var v :- ParseFloat(f);
      Some(Some(v * 1000.0))
  }

  /** `int(f, 16) if f.startswith('0x') else int(f) if f else 0`. */
  function ParseEcn(f: string): (r: Option<int>)
  {
    if StartsWith(f, "0x") then
      var v :- ParseHexPrefixed(f);
      Some(v)
    else if f != "" then ParseInt(f)
    else Some(0)
  }

  /**
   * The fields after `line.strip().split(',')`. Fewer than six fields are
   * skipped by the length guard; exactly six pass it, but reading the seventh
   * raises and the line is dropped; so at least seven are needed. Every
   * conversion can raise, and all of them happen before the first update.
   */
  function ParseFields(cols: seq<string>): (r: Option<CaptureRecord>)
    ensures |cols| < 7 ==> r.None?
    ensures r.Some? <==> |cols| >= 7 && ParseFloat(cols[0]).Some? && ParseLength(cols[2]).Some?
                         && ParseLength(cols[3]).Some? && ParseRtt(cols[4]).Some? && ParseEcn(cols[5]).Some?
  {
    if |cols| < 7 then None
    else Convert(ParseFloat(cols[0]), cols[1], ParseLength(cols[2]), ParseLength(cols[3]),
                 ParseRtt(cols[4]), ParseEcn(cols[5]), cols[6] != "")
  }

  /** The record of a line whose conversions have all been made; None when any of them raised. */
  function Convert(ts: Option<real>, src: string, pktLen: Option<int>, tcpLen: Option<int>,
                   rtt: Option<Option<real>>, ecn: Option<int>, retrans: bool): (r: Option<CaptureRecord>)
    ensures r.Some? <==> ts.Some? && pktLen.Some? && tcpLen.Some? && rtt.Some? && ecn.Some?
  {
    if ts.Some? && pktLen.Some? && tcpLen.Some? && rtt.Some? && ecn.Some? then
      Some(CaptureRecord(ts.value, src, pktLen.value, tcpLen.value, rtt.value, ecn.value, retrans))
    else None
  }

  function ParseLine(line: string): Option<CaptureRecord> {
    ParseFields(Split(Strip(line), ','))
  }

  /** What an accepted line records: the raw source field, each number from its field, and the flag as "field not empty". */
  lemma {:induction false} AcceptedFields(cols: seq<string>)
    requires ParseFields(cols).Some?
    ensures var r := ParseFields(cols).value;
            && r.ts == ParseFloat(cols[0]).value
            && r.src == cols[1]
            && r.pktLen == (if cols[2] == "" then 0 else ParseInt(cols[2]).value)
            && r.tcpLen == (if cols[3] == "" then 0 else ParseInt(cols[3]).value)
            && (r.rtt.None? <==> cols[4] == "")
            && (r.rtt.Some? ==> r.rtt.value == ParseFloat(cols[4]).value * 1000.0)
            && (r.retrans <==> cols[6] != "")
  {
  }

  /** A line with exactly six fields gets past the `< 6` guard and is still dropped. */
  lemma {:induction false} SixFieldsDropped(fields: seq<string>)
    requires |fields| == 6
    requires forall i :: 0 <= i < 6 ==> ',' !in fields[i]
    requires |fields[0]| > 0 && !IsSpace(fields[0][0])
    requires |fields[5]| == 0 || !IsSpace(fields[5][|fields[5]| - 1])
    ensures ParseLine(Join(fields, ',')) == None
  {
    LineFields(fields);
  }

  /** A line built from comma-free fields, with no white space at its ends, is parsed field by field. */
  lemma {:induction false} LineFields(fields: seq<string>)
    requires |fields| > 1
    requires forall i :: 0 <= i < |fields| ==> ',' !in fields[i]
    requires |fields[0]| > 0 && !IsSpace(fields[0][0])
    requires var l := fields[|fields| - 1]; |l| == 0 || !IsSpace(l[|l| - 1])
    ensures ParseLine(Join(fields, ',')) == ParseFields(fields)
  {
    JoinUnstripped(fields, ',');
    SplitJoin(fields, ',');
  }

  // ---------------------------------------------------------------- ECN field

  /** A `0x` field is read as hexadecimal. */
  lemma {:induction false} EcnHex(h: string)
    requires |h| > 0 && AllHexDigits(h)
    ensures ParseEcn("0x" + h) == Some(HexValue(h) as int)
  {
    var f := "0x" + h;
    assert StartsWith(f, "0x") && f[2..] == h;
    assert ParseHexPrefixed(f) == Some(HexValue(h)) by {
      HexFieldUnstripped(f);
    }
  }

  /** `0x` with no digit after it raises, and the line is dropped. */
  lemma {:induction false} EcnBareHexPrefix()
    ensures ParseEcn("0x") == None
  {
    assert StartsWith("0x", "0x");
    StripNoSpace("0x");
  }

  /** A decimal field is read as decimal, so "2", "1" and "3" are ECT(0), ECT(1) and CE. */
  lemma {:induction false} EcnDecimal(n: nat)
    ensures ParseEcn(ShowNat(n)) == Some(n)
  {
    var s := ShowNat(n);
    assert !StartsWith(s, "0x") by {
      if |s| >= 2 {
        assert IsDigit(s[1]);
      }
    }
    ParseIntShowNat(n);
  }

  /** An empty ECN field is Not-ECT; a field that is neither hex nor a number drops the line. */
  lemma {:induction false} EcnEmptyOrMalformed(f: string)
    ensures f == "" ==> ParseEcn(f) == Some(NotEct)
    ensures f != "" && !StartsWith(f, "0x") && !IsDigits(SplitSign(Strip(f)).1) ==> ParseEcn(f) == None
  {
  }

  // ---------------------------------------------------------------- round trip

  /** The seven fields the capture tool writes for a packet. */
  function WrittenFields(tsWhole: string, tsFrac: string, src: string, pktLen: nat, tcpLen: nat,
                         rtt: Option<(string, string)>, ecn: nat, retrans: bool): (fields: seq<string>)
    ensures |fields| == 7
  {
    [Decimal(tsWhole, tsFrac), src, ShowNat(pktLen), ShowNat(tcpLen),
     RttText(rtt), ShowNat(ecn), if retrans then "1" else ""]
  }

  /** The RTT field as written: empty, or seconds as `<whole>.<frac>`. */
  function RttText(rtt: Option<(string, string)>): string {
    if rtt.Some? then Decimal(rtt.value.0, rtt.value.1) else ""
  }

  /** The RTT sample that field stands for, in milliseconds. */
  function RttValue(rtt: Option<(string, string)>): Option<real>
    requires rtt.Some? ==> AllDigits(rtt.value.0) && AllDigits(rtt.value.1)
  {
    if rtt.Some? then Some(FixedPointValue(rtt.value.0, rtt.value.1) * 1000.0) else None
  }

  lemma {:induction false} RttRoundTrip(rtt: Option<(string, string)>)
    requires rtt.Some? ==> IsDigits(rtt.value.0) && AllDigits(rtt.value.1)
    ensures ParseRtt(RttText(rtt)) == Some(RttValue(rtt))
  {
    if rtt.Some? {
      var w, f := rtt.value.0, rtt.value.1;
      var d := Decimal(w, f);
      var v := FixedPointValue(w, f);
      assert RttText(rtt) == d && RttValue(rtt) == Some(v * 1000.0);
      assert ParseFloat(d) == Some(v) by {
        TimestampField(w, f);
      }
      assert d != "" by {
        assert |d| == |w| + 1 + |f|;
      }
      RttOfParsed(d, v);
    }
  }

  /**
   * A line as the capture tool writes it (timestamp and RTT as `<whole>.<frac>`,
   * lengths and ECN in decimal, the flag as "1" or empty) is read back as the
   * values it was written from, with the RTT scaled to milliseconds.
   */
  lemma {:induction false} LineRoundTrip(tsWhole: string, tsFrac: string, src: string, pktLen: nat, tcpLen: nat,
                      rtt: Option<(string, string)>, ecn: nat, retrans: bool)
    requires IsDigits(tsWhole) && AllDigits(tsFrac) && ',' !in src
    requires rtt.Some? ==> IsDigits(rtt.value.0) && AllDigits(rtt.value.1)
    ensures ParseLine(Join(WrittenFields(tsWhole, tsFrac, src, pktLen, tcpLen, rtt, ecn, retrans), ','))
            == Some(CaptureRecord(
                 FixedPointValue(tsWhole, tsFrac), src, pktLen, tcpLen, RttValue(rtt), ecn, retrans))
  {
    var fields := WrittenFields(tsWhole, tsFrac, src, pktLen, tcpLen, rtt, ecn, retrans);
    WrittenFieldsCommaFree(tsWhole, tsFrac, src, pktLen, tcpLen, rtt, ecn, retrans);
    assert fields[0][0] == tsWhole[0];
    assert IsDigit(tsWhole[0]);
    LineFields(fields);
    FieldsRoundTrip(tsWhole, tsFrac, src, pktLen, tcpLen, rtt, ecn, retrans);
  }

  lemma {:induction false} FieldsRoundTrip(tsWhole: string, tsFrac: string, src: string, pktLen: nat, tcpLen: nat,
                        rtt: Option<(string, string)>, ecn: nat, retrans: bool)
    requires IsDigits(tsWhole) && AllDigits(tsFrac)
    requires rtt.Some? ==> IsDigits(rtt.value.0) && AllDigits(rtt.value.1)
    ensures ParseFields(WrittenFields(tsWhole, tsFrac, src, pktLen, tcpLen, rtt, ecn, retrans))
            == Some(CaptureRecord(
                 FixedPointValue(tsWhole, tsFrac), src, pktLen, tcpLen, RttValue(rtt), ecn, retrans))
  {
    var ts := Decimal(tsWhole, tsFrac);
    var flag := if retrans then "1" else "";
    assert ParseFloat(ts) == Some(FixedPointValue(tsWhole, tsFrac)) by {
      TimestampField(tsWhole, tsFrac);
    }
    assert ParseLength(ShowNat(pktLen)) == Some(pktLen) by {
      LengthField(pktLen);
    }
    assert ParseLength(ShowNat(tcpLen)) == Some(tcpLen) by {
      LengthField(tcpLen);
    }
    assert ParseRtt(RttText(rtt)) == Some(RttValue(rtt)) by {
      RttRoundTrip(rtt);
    }
    assert ParseEcn(ShowNat(ecn)) == Some(ecn) by {
      EcnDecimal(ecn);
    }
    FieldsAccepted(ts, src, ShowNat(pktLen), ShowNat(tcpLen), RttText(rtt), ShowNat(ecn), flag,
                   FixedPointValue(tsWhole, tsFrac), pktLen, tcpLen, RttValue(rtt), ecn);
  }

  /** A written timestamp converts back to the value it was written from. */
  lemma {:induction false} TimestampField(whole: string, frac: string)
    requires IsDigits(whole) && AllDigits(frac)
    ensures ParseFloat(Decimal(whole, frac)) == Some(FixedPointValue(whole, frac))
  {
    ParseFloatFixedPoint(whole, frac);
  }

  /** A written length converts back to the value it was written from. */
  lemma {:induction false} LengthField(n: nat)
    ensures ParseLength(ShowNat(n)) == Some(n)
  {
    ParseIntShowNat(n);
  }

  /** A line whose conversions all succeed is accepted with exactly those values. */
  lemma {:induction false} FieldsAccepted(c0: string, c1: string, c2: string, c3: string, c4: string, c5: string, c6: string,
                       ts: real, pktLen: int, tcpLen: int, rtt: Option<real>, ecn: int)
    requires ParseFloat(c0) == Some(ts)
    requires ParseLength(c2) == Some(pktLen) && ParseLength(c3) == Some(tcpLen)
    requires ParseRtt(c4) == Some(rtt) && ParseEcn(c5) == Some(ecn)
    ensures ParseFields([c0, c1, c2, c3, c4, c5, c6])
            == Some(CaptureRecord(ts, c1, pktLen, tcpLen, rtt, ecn, c6 != ""))
  {
  }

  lemma {:induction false} RttOfParsed(f: string, v: real)
    requires f != "" && ParseFloat(f) == Some(v)
    ensures ParseRtt(f) == Some(Some(v * 1000.0))
  {
  }

  lemma {:induction false} WrittenFieldsCommaFree(tsWhole: string, tsFrac: string, src: string, pktLen: nat, tcpLen: nat,
                               rtt: Option<(string, string)>, ecn: nat, retrans: bool)
    requires AllDigits(tsWhole) && AllDigits(tsFrac) && ',' !in src
    requires rtt.Some? ==> AllDigits(rtt.value.0) && AllDigits(rtt.value.1)
    ensures var fields := WrittenFields(tsWhole, tsFrac, src, pktLen, tcpLen, rtt, ecn, retrans);
            forall i :: 0 <= i < |fields| ==> ',' !in fields[i]
  {
    DecimalCommaFree(tsWhole, tsFrac);
    if rtt.Some? {
      DecimalCommaFree(rtt.value.0, rtt.value.1);
    }
    ShowNatCommaFree(pktLen);
    ShowNatCommaFree(tcpLen);
    ShowNatCommaFree(ecn);
  }

  // ---------------------------------------------------------------- the window

  /** The counters and lists of a `MetricsWindow`, as a value. */
  datatype Window = Window(
    bytesTotal: int, bytesUseful: int, packetCount: nat, retransmissions: nat,
    ceMarks: nat, ect1Marks: nat, rttSamples: seq<real>, packetSizes: seq<int>,
    arrivalTimes: seq<real>, attackerBytes: int)

  /** `MetricsWindow.reset()`: every counter 0 and every list empty. */
  const EmptyWindow: Window := Window(0, 0, 0, 0, 0, 0, [], [], [], 0)

  /** `if rtt:` -- an RTT sample is kept only when there is one and it is not zero. */
  predicate KeepsRtt(r: CaptureRecord) {
    r.rtt.Some? && r.rtt.value != 0.0
  }

  /** The updates one accepted packet makes to the window. */
  function Accumulate(w: Window, r: CaptureRecord): (w': Window)
    ensures w'.packetCount == w.packetCount + 1
    ensures w'.packetSizes == w.packetSizes + [r.pktLen] && w'.arrivalTimes == w.arrivalTimes + [r.ts]
    ensures w'.bytesTotal == w.bytesTotal + r.pktLen && w'.bytesUseful == w.bytesUseful + r.tcpLen
    ensures w'.rttSamples == if KeepsRtt(r) then w.rttSamples + [r.rtt.value] else w.rttSamples
    ensures w'.retransmissions == w.retransmissions + (if r.retrans then 1 else 0)
    ensures w'.ceMarks == w.ceMarks + (if r.ecn == Ce then 1 else 0)
    ensures w'.ect1Marks == w.ect1Marks + (if r.ecn == Ect1 then 1 else 0)
    ensures w'.attackerBytes == w.attackerBytes + (if r.src == AttackerIp then r.pktLen else 0)
  {
    var marks := MarkIncrements(r.ecn);
    Window(
      w.bytesTotal + r.pktLen, w.bytesUseful + r.tcpLen, w.packetCount + 1,
      w.retransmissions + (if r.retrans then 1 else 0), w.ceMarks + marks.0, w.ect1Marks + marks.1,
      if KeepsRtt(r) then w.rttSamples + [r.rtt.value] else w.rttSamples,
      w.packetSizes + [r.pktLen], w.arrivalTimes + [r.ts],
      w.attackerBytes + (if r.src == AttackerIp then r.pktLen else 0))
  }

  /** A parse result applied to the window: a dropped line (None) leaves it exactly as it was. */
  function Apply(w: Window, o: Option<CaptureRecord>): (w': Window)
    ensures o.None? ==> w' == w
    ensures o.Some? ==> w' == Accumulate(w, o.value)
  {
    match o
    case None => w
    case Some(r) => Accumulate(w, r)
  }

  /** The parse results of the lines, one per line, in order. */
  function ParseLines(lines: seq<string>): (os: seq<Option<CaptureRecord>>)
    ensures |os| == |lines|
  {
    if |lines| == 0 then [] else ParseLines(lines[..|lines| - 1]) + [ParseLine(lines[|lines| - 1])]
  }

  /** The window after the capture loop has applied the parse results `os` in order. */
  function IngestAll(w: Window, os: seq<Option<CaptureRecord>>): Window {
    if |os| == 0 then w else Apply(IngestAll(w, os[..|os| - 1]), os[|os| - 1])
  }

  /** The window after the capture loop has read `lines` in order. */
  function IngestLines(w: Window, lines: seq<string>): Window {
    IngestAll(w, ParseLines(lines))
  }

  lemma {:induction false} ParseLinesStep(lines: seq<string>, i: nat)
    requires i < |lines|
    ensures ParseLines(lines[..i + 1]) == ParseLines(lines[..i]) + [ParseLine(lines[i])]
  {
    var p := lines[..i + 1];
    assert p[..i] == lines[..i] && p[i] == lines[i];
  }

  lemma {:induction false} IngestAllAppend(w: Window, os: seq<Option<CaptureRecord>>, o: Option<CaptureRecord>)
    ensures IngestAll(w, os + [o]) == Apply(IngestAll(w, os), o)
  {
    assert (os + [o])[..|os|] == os;
  }

  // ---------------------------------------------------------------- invariants

  /** What every window reachable from an empty one satisfies. */
  predicate Consistent(w: Window) {
    && w.packetCount == |w.packetSizes| == |w.arrivalTimes|
    && w.bytesTotal == SumInt(w.packetSizes)
    && w.ceMarks + w.ect1Marks <= w.packetCount
    && w.retransmissions <= w.packetCount
    && |w.rttSamples| <= w.packetCount
  }

  /** The attacker's bytes are part of the window's bytes. */
  predicate AttackerWithin(w: Window) {
    0 <= w.attackerBytes <= w.bytesTotal
  }

  lemma {:induction false} EmptyWindowInvariants()
    ensures Consistent(EmptyWindow) && AttackerWithin(EmptyWindow)
  {
  }

  lemma {:induction false} AccumulateConsistent(w: Window, r: CaptureRecord)
    requires Consistent(w)
    ensures Consistent(Accumulate(w, r))
  {
    SumIntAppend(w.packetSizes, r.pktLen);
  }

  lemma {:induction false} AccumulateAttackerWithin(w: Window, r: CaptureRecord)
    requires AttackerWithin(w) && r.pktLen >= 0
    ensures AttackerWithin(Accumulate(w, r))
  {
  }

  /** The counters and the lists agree after any sequence of lines, accepted or dropped. */
  lemma {:induction false} IngestAllConsistent(w: Window, os: seq<Option<CaptureRecord>>)
    requires Consistent(w)
    ensures Consistent(IngestAll(w, os))
  {
    if |os| > 0 {
      var v := IngestAll(w, os[..|os| - 1]);
      IngestAllConsistent(w, os[..|os| - 1]);
      if os[|os| - 1].Some? {
        AccumulateConsistent(v, os[|os| - 1].value);
      }
    }
  }

  /** A parse result that is a drop or a record with a non-negative frame length. */
  predicate NonNegativeLength(o: Option<CaptureRecord>) {
    o.Some? ==> o.value.pktLen >= 0
  }

  /** With no negative frame length, the attacker's bytes never exceed the window's bytes. */
  lemma {:induction false} IngestAllAttackerWithin(w: Window, os: seq<Option<CaptureRecord>>)
    requires AttackerWithin(w)
    requires forall i :: 0 <= i < |os| ==> NonNegativeLength(os[i])
    ensures AttackerWithin(IngestAll(w, os))
  {
    if |os| > 0 {
      var p := os[..|os| - 1];
      var v := IngestAll(w, p);
      assert forall i :: 0 <= i < |p| ==> NonNegativeLength(p[i]) by {
        forall i | 0 <= i < |p| ensures NonNegativeLength(p[i]) {
          assert p[i] == os[i];
        }
      }
      IngestAllAttackerWithin(w, p);
      var o := os[|os| - 1];
      assert NonNegativeLength(o);
      if o.Some? {
        AccumulateAttackerWithin(v, o.value);
      }
    }
  }

  // ---------------------------------------------------------------- reference summary

  function Lengths(recs: seq<CaptureRecord>): (s: seq<int>)
    ensures |s| == |recs| && forall i :: 0 <= i < |recs| ==> s[i] == recs[i].pktLen
  {
    if |recs| == 0 then [] else Lengths(recs[..|recs| - 1]) + [recs[|recs| - 1].pktLen]
  }

  function Payloads(recs: seq<CaptureRecord>): (s: seq<int>)
    ensures |s| == |recs| && forall i :: 0 <= i < |recs| ==> s[i] == recs[i].tcpLen
  {
    if |recs| == 0 then [] else Payloads(recs[..|recs| - 1]) + [recs[|recs| - 1].tcpLen]
  }

  function Timestamps(recs: seq<CaptureRecord>): (s: seq<real>)
    ensures |s| == |recs| && forall i :: 0 <= i < |recs| ==> s[i] == recs[i].ts
  {
    if |recs| == 0 then [] else Timestamps(recs[..|recs| - 1]) + [recs[|recs| - 1].ts]
  }

  /** How many of the records were flagged as retransmissions. */
  function CountRetrans(recs: seq<CaptureRecord>): (n: nat)
    ensures n <= |recs|
  {
    if |recs| == 0 then 0 else CountRetrans(recs[..|recs| - 1]) + (if recs[|recs| - 1].retrans then 1 else 0)
  }

  /** How many of the records carry the CE codepoint. */
  function CountCe(recs: seq<CaptureRecord>): (n: nat)
    ensures n <= |recs|
  {
    if |recs| == 0 then 0 else CountCe(recs[..|recs| - 1]) + (if recs[|recs| - 1].ecn == Ce then 1 else 0)
  }

  /** How many of the records carry the ECT(1) codepoint. */
  function CountEct1(recs: seq<CaptureRecord>): (n: nat)
    ensures n <= |recs|
  {
    if |recs| == 0 then 0 else CountEct1(recs[..|recs| - 1]) + (if recs[|recs| - 1].ecn == Ect1 then 1 else 0)
  }

  /** The kept RTT samples of the records, in order. */
  function RttSamplesOf(recs: seq<CaptureRecord>): (s: seq<real>)
    ensures |s| <= |recs|
  {
    if |recs| == 0 then []
    else
      var r := recs[|recs| - 1];
      RttSamplesOf(recs[..|recs| - 1]) + (if KeepsRtt(r) then [r.rtt.value] else [])
  }

  /** The frame lengths of the records sent by the attacker. */
  function AttackerLengths(recs: seq<CaptureRecord>): seq<int> {
    if |recs| == 0 then []
    else
      var r := recs[|recs| - 1];
      AttackerLengths(recs[..|recs| - 1]) + (if r.src == AttackerIp then [r.pktLen] else [])
  }

  /** The window of a list of accepted packets, field by field, without reference to the update order. */
  function Summary(recs: seq<CaptureRecord>): Window {
    Window(
      SumInt(Lengths(recs)), SumInt(Payloads(recs)), |recs|,
      CountRetrans(recs), CountCe(recs), CountEct1(recs),
      RttSamplesOf(recs), Lengths(recs), Timestamps(recs), SumInt(AttackerLengths(recs)))
  }

  lemma {:induction false} AccumulateSummary(recs: seq<CaptureRecord>, r: CaptureRecord)
    ensures Accumulate(Summary(recs), r) == Summary(recs + [r])
  {
    SummaryStep(recs, r);
    AccumulateMatches(Summary(recs), r, Summary(recs + [r]));
  }

  /** A window whose every field is the one Accumulate computes is Accumulate's result. */
  lemma {:induction false} AccumulateMatches(a: Window, r: CaptureRecord, s: Window)
    requires s.bytesTotal == a.bytesTotal + r.pktLen && s.packetSizes == a.packetSizes + [r.pktLen]
    requires s.bytesUseful == a.bytesUseful + r.tcpLen && s.arrivalTimes == a.arrivalTimes + [r.ts]
    requires s.packetCount == a.packetCount + 1
    requires s.retransmissions == a.retransmissions + (if r.retrans then 1 else 0)
    requires s.ceMarks == a.ceMarks + (if r.ecn == Ce then 1 else 0)
    requires s.ect1Marks == a.ect1Marks + (if r.ecn == Ect1 then 1 else 0)
    requires s.attackerBytes == a.attackerBytes + (if r.src == AttackerIp then r.pktLen else 0)
    requires s.rttSamples == if KeepsRtt(r) then a.rttSamples + [r.rtt.value] else a.rttSamples
    ensures Accumulate(a, r) == s
  {
    SameFields(Accumulate(a, r), s);
  }

  lemma {:induction false} SameFields(v: Window, s: Window)
    requires v.bytesTotal == s.bytesTotal && v.bytesUseful == s.bytesUseful && v.packetCount == s.packetCount
    requires v.retransmissions == s.retransmissions && v.ceMarks == s.ceMarks && v.ect1Marks == s.ect1Marks
    requires v.rttSamples == s.rttSamples && v.packetSizes == s.packetSizes
    requires v.arrivalTimes == s.arrivalTimes && v.attackerBytes == s.attackerBytes
    ensures v == s
  {
  }

  /** Each field of the summary after one more record, from the same field before it. */
  lemma {:induction false} SummaryStep(recs: seq<CaptureRecord>, r: CaptureRecord)
    ensures var a, s := Summary(recs), Summary(recs + [r]);
            && s.bytesTotal == a.bytesTotal + r.pktLen && s.packetSizes == a.packetSizes + [r.pktLen]
            && s.bytesUseful == a.bytesUseful + r.tcpLen && s.arrivalTimes == a.arrivalTimes + [r.ts]
            && s.packetCount == a.packetCount + 1
            && s.retransmissions == a.retransmissions + (if r.retrans then 1 else 0)
            && s.ceMarks == a.ceMarks + (if r.ecn == Ce then 1 else 0)
            && s.ect1Marks == a.ect1Marks + (if r.ecn == Ect1 then 1 else 0)
            && s.attackerBytes == a.attackerBytes + (if r.src == AttackerIp then r.pktLen else 0)
            && s.rttSamples == if KeepsRtt(r) then a.rttSamples + [r.rtt.value] else a.rttSamples
  {
    LengthsAppend(recs, r);
    PayloadsAppend(recs, r);
    TimestampsAppend(recs, r);
    CountsAppend(recs, r);
    AttackerAndRttAppend(recs, r);
  }

  lemma {:induction false} LengthsAppend(recs: seq<CaptureRecord>, r: CaptureRecord)
    ensures Lengths(recs + [r]) == Lengths(recs) + [r.pktLen]
    ensures SumInt(Lengths(recs + [r])) == SumInt(Lengths(recs)) + r.pktLen
  {
    assert (recs + [r])[..|recs|] == recs;
    SumIntAppend(Lengths(recs), r.pktLen);
  }

  lemma {:induction false} PayloadsAppend(recs: seq<CaptureRecord>, r: CaptureRecord)
    ensures SumInt(Payloads(recs + [r])) == SumInt(Payloads(recs)) + r.tcpLen
  {
    assert (recs + [r])[..|recs|] == recs;
    SumIntAppend(Payloads(recs), r.tcpLen);
  }

  lemma {:induction false} TimestampsAppend(recs: seq<CaptureRecord>, r: CaptureRecord)
    ensures Timestamps(recs + [r]) == Timestamps(recs) + [r.ts]
  {
    assert (recs + [r])[..|recs|] == recs;
  }

  lemma {:induction false} CountsAppend(recs: seq<CaptureRecord>, r: CaptureRecord)
    ensures CountRetrans(recs + [r]) == CountRetrans(recs) + (if r.retrans then 1 else 0)
    ensures CountCe(recs + [r]) == CountCe(recs) + (if r.ecn == Ce then 1 else 0)
    ensures CountEct1(recs + [r]) == CountEct1(recs) + (if r.ecn == Ect1 then 1 else 0)
  {
    assert (recs + [r])[..|recs|] == recs;
  }

  lemma {:induction false} AttackerAndRttAppend(recs: seq<CaptureRecord>, r: CaptureRecord)
    ensures SumInt(AttackerLengths(recs + [r])) == SumInt(AttackerLengths(recs)) + (if r.src == AttackerIp then r.pktLen else 0)
    ensures RttSamplesOf(recs + [r]) == if KeepsRtt(r) then RttSamplesOf(recs) + [r.rtt.value] else RttSamplesOf(recs)
  {
    var t := recs + [r];
    assert t[..|recs|] == recs;
    if r.src == AttackerIp {
      assert AttackerLengths(t) == AttackerLengths(recs) + [r.pktLen];
      SumIntAppend(AttackerLengths(recs), r.pktLen);
    } else {
      assert AttackerLengths(t) == AttackerLengths(recs) + [];
      assert AttackerLengths(recs) + [] == AttackerLengths(recs);
    }
    if !KeepsRtt(r) {
      assert RttSamplesOf(t) == RttSamplesOf(recs) + [];
    }
  }

  /**
   * Applying the parse results to an empty window gives the summary of the
   * accepted records: the counts of CE, ECT(1) and retransmitted packets, the
   * sums of the lengths, the lengths and timestamps in arrival order, the kept
   * RTTs and the attacker's bytes.
   */
  lemma {:induction false} IngestAllSummary(os: seq<Option<CaptureRecord>>)
    ensures IngestAll(EmptyWindow, os) == Summary(Accepted(os))
  {
    if |os| == 0 {
      assert Summary([]) == EmptyWindow;
    } else {
      var p := os[..|os| - 1];
      IngestAllSummary(p);
      if os[|os| - 1].Some? {
        AccumulateSummary(Accepted(p), os[|os| - 1].value);
      }
    }
  }

  /** So the window read from a sequence of lines is the summary of the lines that are accepted. */
  lemma {:induction false} IngestLinesSummary(lines: seq<string>)
    ensures IngestLines(EmptyWindow, lines) == Summary(Accepted(ParseLines(lines)))
    ensures Consistent(IngestLines(EmptyWindow, lines))
  {
    IngestAllSummary(ParseLines(lines));
    IngestAllConsistent(EmptyWindow, ParseLines(lines));
  }

  // ---------------------------------------------------------------- the class

  /** `MetricsWindow`: the window the capture loop updates in place. */
  class MetricsWindow {
    var bytesTotal: int
    var bytesUseful: int
    var packetCount: nat
    var retransmissions: nat
    var ceMarks: nat
    var ect1Marks: nat
    var rttSamples: seq<real>
    var packetSizes: seq<int>
    var arrivalTimes: seq<real>
    var attackerBytes: int

    function Value(): Window
      reads this
    {
      Window(bytesTotal, bytesUseful, packetCount, retransmissions, ceMarks, ect1Marks,
             rttSamples, packetSizes, arrivalTimes, attackerBytes)
    }

    /** `__init__` calls `reset`. */
    constructor()
      ensures Value() == EmptyWindow
    {
      bytesTotal, bytesUseful, packetCount, retransmissions := 0, 0, 0, 0;
      ceMarks, ect1Marks := 0, 0;
      rttSamples, packetSizes, arrivalTimes := [], [], [];
      attackerBytes := 0;
    }

    method Reset()
      modifies this
      ensures Value() == EmptyWindow
    {
      bytesTotal, bytesUseful, packetCount, retransmissions := 0, 0, 0, 0;
      ceMarks, ect1Marks := 0, 0;
      rttSamples, packetSizes, arrivalTimes := [], [], [];
      attackerBytes := 0;
    }

    /** The counter updates for one accepted packet, in the order the capture loop makes them. */
    method Add(r: CaptureRecord)
      modifies this
      ensures Value() == Accumulate(old(Value()), r)
    {
      ghost var w := Accumulate(Value(), r);
      packetCount, bytesTotal, bytesUseful := packetCount + 1, bytesTotal + r.pktLen, bytesUseful + r.tcpLen;
      packetSizes, arrivalTimes := packetSizes + [r.pktLen], arrivalTimes + [r.ts];
      if KeepsRtt(r) {
        rttSamples := rttSamples + [r.rtt.value];
      }
      if r.retrans {
        retransmissions := retransmissions + 1;
      }
      if r.ecn == Ce {
        ceMarks := ceMarks + 1;
      } else if r.ecn == Ect1 {
        ect1Marks := ect1Marks + 1;
      }
      if r.src == AttackerIp {
        attackerBytes := attackerBytes + r.pktLen;
      }
      SameFields(Value(), w);
    }

    /** One line of capture output: every conversion is made first, and only an accepted line is added. */
    method Ingest(line: string)
      modifies this
      ensures Value() == Apply(old(Value()), ParseLine(line))
    {
      var r := ParseLine(line);
      if r.Some? {
        Add(r.value);
      }
    }
  }

  /** The capture loop over the lines the capture tool prints, run on its own. */
  method CaptureTraffic(w: MetricsWindow, lines: seq<string>)
    modifies w
    ensures w.Value() == IngestLines(old(w.Value()), lines)
  {
    var i := 0;
    while i < |lines|
      invariant 0 <= i <= |lines|
      invariant w.Value() == IngestAll(old(w.Value()), ParseLines(lines[..i]))
    {
      ParseLinesStep(lines, i);
      IngestAllAppend(old(w.Value()), ParseLines(lines[..i]), ParseLine(lines[i]));
      w.Ingest(lines[i]);
      i := i + 1;
    }
    assert lines[..|lines|] == lines;
  }
}
