/**
 * The processing side of the collector (`coleta_metrics.py`): once per window
 * the current `MetricsWindow` becomes the snapshot and a fresh one replaces
 * it; an empty snapshot is skipped; otherwise the window's features are
 * derived, the RTT and throughput histories are pushed, and one CSV row is
 * appended.
 *
 * The capture thread and the processing loop share `current_window`; here the
 * two are one sequence of events, each a captured line or the end of a window.
 */
module Collector {
  import opened Wrappers
  import opened Ecn
  import opened Stats
  import opened History
  import opened Capture

  /** `WINDOW_SIZE`, in seconds. */
  const WindowSize: real := 1.0

  /** The header columns, in the order the row dictionary lists its keys. */
  const Columns: seq<string> := [
    "timestamp", "label",
    "throughput_bps", "goodput_bps", "packet_rate_pps",
    "packet_loss_rate", "retransmission_rate",
    "jitter_ms", "inter_arrival_time_mean",
    "packet_size_mean", "packet_size_std",
    "burstiness", "rtt_mean", "rtt_std", "rtt_gradient",
    "ce_count", "ce_mark_rate", "ect1_count",
    "cwnd_growth_rate",
    "rolling_mean_rtt", "rolling_slope_rtt",
    "l4s_queue_delay_ms", "classic_queue_delay_ms"]

  /**
   * A value in a row: a number, the square root of a number (a standard
   * deviation, kept as the variance under the root), or text.
   */
  datatype Cell = Num(x: real) | Root(radicand: real) | Text(s: string)

  type Row = seq<(string, Cell)>

  /**
   * What the queue lookup returns. It runs `tc -s qdisc show` and discards what it
   * reads; both the normal path and the exception path return zeros.
   */
  datatype QueueStats = QueueStats(l4sDelayMs: int, classicDelayMs: int, drops: int)

  const QueueReading: QueueStats := QueueStats(0, 0, 0)

  // ---------------------------------------------------------------- rates

  function Throughput(w: Window): real {
    (w.bytesTotal * 8) as real / WindowSize
  }

  function Goodput(w: Window): real {
    (w.bytesUseful * 8) as real / WindowSize
  }

  function PacketRate(w: Window): real {
    w.packetCount as real / WindowSize
  }

  function CeMarkRate(w: Window): real {
    w.ceMarks as real / WindowSize
  }

  /** Bits per second over the one-second window: eight times the bytes. */
  lemma {:induction false} RatesPerSecond(w: Window)
    ensures Throughput(w) == 8.0 * w.bytesTotal as real
    ensures Goodput(w) == 8.0 * w.bytesUseful as real
    ensures PacketRate(w) == w.packetCount as real && CeMarkRate(w) == w.ceMarks as real
  {
  }

  /** Three 1000-byte frames in one window are 24000 bit/s. */
  lemma {:induction false} ThroughputExample()
    ensures Throughput(Window(3000, 0, 3, 0, 0, 0, [], [1000, 1000, 1000], [0.0, 0.1, 0.2], 0)) == 24000.0
  {
  }

  /** `retransmissions / packet_count if packet_count else 0`. */
  function RetransmissionRate(w: Window): (r: real)
    ensures w.retransmissions <= w.packetCount ==> 0.0 <= r <= 1.0
    ensures w.packetCount == 0 ==> r == 0.0
    ensures w.packetCount > 0 && w.retransmissions == w.packetCount ==> r == 1.0
  {
    if w.packetCount > 0 then w.retransmissions as real / w.packetCount as real else 0.0
  }

  // ---------------------------------------------------------------- timing

  /** `np.diff(arrival_times) if len(arrival_times) > 1 else [0]`: the times are not sorted first. */
  function InterArrival(times: seq<real>): (g: seq<real>)
    ensures |g| > 0
  {
    if |times| > 1 then Gaps(times) else [0.0]
  }

  /** The mean gap is (last - first) / (n - 1), and 0 with fewer than two arrivals. */
  lemma {:induction false} InterArrivalMean(times: seq<real>)
    ensures Mean(InterArrival(times))
            == if |times| > 1 then (times[|times| - 1] - times[0]) / (|times| - 1) as real else 0.0
  {
    if |times| > 1 {
      MeanGap(times);
    } else {
      assert SumReal([0.0]) == 0.0;
    }
  }

  /** Arrival times out of order give a negative mean gap: 2.0 then 1.0 has mean gap -1. */
  lemma {:induction false} InterArrivalUnsorted()
    ensures Mean(InterArrival([2.0, 1.0])) == -1.0
  {
    InterArrivalMean([2.0, 1.0]);
  }

  /** `jitter_ms`: the standard deviation of the gaps, times 1000, as the root of 10^6 times their variance. */
  function Jitter(times: seq<real>): (c: Cell)
    ensures c.Root?
  {
    Root(1000000.0 * Variance(InterArrival(times)))
  }

  /** The jitter is a real square root, and it is 0 for evenly spaced arrivals. */
  lemma {:induction false} JitterRoot(times: seq<real>, d: real)
    ensures Jitter(times).radicand >= 0.0
    ensures (forall i :: 0 <= i < |times| - 1 ==> times[i + 1] - times[i] == d) ==> Jitter(times).radicand == 0.0
  {
    var g := InterArrival(times);
    VarianceNonNegative(g);
    if forall i :: 0 <= i < |times| - 1 ==> times[i + 1] - times[i] == d {
      if |times| > 1 {
        forall i | 0 <= i < |g| ensures g[i] == d {
          GapsAt(times, i);
        }
        VarianceOfConstant(g, d);
      } else {
        VarianceOfConstant(g, 0.0);
      }
    }
  }

  // ---------------------------------------------------------------- RTT and sizes

  /** `np.mean(rtt_samples) if rtt_samples else 0`. */
  function RttMean(samples: seq<real>): real {
    if |samples| > 0 then Mean(samples) else 0.0
  }

  /** The RTT mean lies between the smallest and the largest sample. */
  lemma {:induction false} RttMeanRange(samples: seq<real>)
    ensures |samples| == 0 ==> RttMean(samples) == 0.0
    ensures |samples| > 0 ==> Min(samples) <= RttMean(samples) <= Max(samples)
  {
    if |samples| > 0 {
      MeanWithinRange(samples);
    }
  }

  function RttStd(samples: seq<real>): Cell {
    if |samples| > 0 then Root(Variance(samples)) else Num(0.0)
  }

  function Reals(s: seq<int>): (r: seq<real>)
    ensures |r| == |s| && forall i :: 0 <= i < |s| ==> r[i] == s[i] as real
  {
    seq(|s|, i requires 0 <= i < |s| => s[i] as real)
  }

  // ---------------------------------------------------------------- label and burstiness

  /** `1 if attacker_bytes > bytes_total * 0.1 else 0`, with 0.1 exact. */
  function Label(w: Window): (l: int)
    ensures l == 1 <==> 10 * w.attackerBytes > w.bytesTotal
    ensures l == 0 || l == 1
  {
    if w.attackerBytes as real > w.bytesTotal as real * 0.1 then 1 else 0
  }

  /** The threshold is strict: 101 attacker bytes of 1000 is an attack window, 100 is not. */
  lemma {:induction false} LabelThreshold()
    ensures Label(Window(1000, 0, 1, 0, 0, 0, [], [1000], [0.0], 101)) == 1
    ensures Label(Window(1000, 0, 1, 0, 0, 0, [], [1000], [0.0], 100)) == 0
  {
  }

  /** The throughput over the mean of the throughput history, which already holds the current window. */
  function Burstiness(throughput: real, history: seq<real>): real {
    if |history| > 0 && Mean(history) > 0.0 then throughput / Mean(history) else 0.0
  }

  /** In the first window the history is the current throughput alone, so a busy first window has burstiness 1. */
  lemma {:induction false} FirstWindowBurstiness(throughput: real)
    requires throughput > 0.0
    ensures Burstiness(throughput, Push([], throughput)) == 1.0
  {
    PushBelowCapacity([], throughput);
    assert SumReal([throughput]) == throughput;
  }

  /**
   * With a positive history mean, burstiness is the throughput in units of that
   * mean: multiplied back by the mean it gives the throughput, and it is not
   * negative for a non-negative throughput. Otherwise it is 0.
   */
  lemma {:induction false} BurstinessRatio(throughput: real, history: seq<real>)
    ensures |history| > 0 && Mean(history) > 0.0 ==>
              Burstiness(throughput, history) * Mean(history) == throughput
              && (throughput >= 0.0 ==> Burstiness(throughput, history) >= 0.0)
    ensures !(|history| > 0 && Mean(history) > 0.0) ==> Burstiness(throughput, history) == 0.0
  {
  }

  // ---------------------------------------------------------------- one window

  /** The two histories: `history_rtt` and `history_throughput`, each a deque of at most ten. */
  datatype Histories = Histories(rtt: seq<real>, throughput: seq<real>)

  predicate HistoriesBounded(h: Histories) {
    |h.rtt| <= Capacity && |h.throughput| <= Capacity && |h.rtt| == |h.throughput|
  }

  /** The histories after a non-empty snapshot: its RTT mean and its throughput are appended. */
  function Pushed(w: Window, h: Histories): (h': Histories)
    ensures |h.rtt| <= Capacity ==> |h'.rtt| == (if |h.rtt| < Capacity then |h.rtt| + 1 else Capacity)
    ensures |h'.rtt| > 0 && h'.rtt[|h'.rtt| - 1] == RttMean(w.rttSamples)
    ensures |h'.throughput| > 0 && h'.throughput[|h'.throughput| - 1] == Throughput(w)
  {
    Histories(Push(h.rtt, RttMean(w.rttSamples)), Push(h.throughput, Throughput(w)))
  }

  /** The values the processing loop computes for one non-empty snapshot, before it builds the row. */
  datatype Features = Features(
    attackLabel: int, throughput: real, goodput: real, pps: real, retransmissionRate: real,
    jitter: Cell, interArrivalMean: real, packetSizeMean: real, packetSizeStd: Cell,
    burstiness: real, rttMean: real, rttStd: Cell, rttGradient: real,
    ceCount: nat, ceMarkRate: real, ect1Count: nat, rollingMeanRtt: real, rollingSlopeRtt: real)

  /** The features of a non-empty snapshot, given the histories after the push. */
  function Derive(w: Window, h: Histories): Features
    requires |w.packetSizes| > 0 && |h.rtt| > 0
  {
    var throughput := Throughput(w);
    var sizes := Reals(w.packetSizes);
    Features(
      Label(w), throughput, Goodput(w), PacketRate(w), RetransmissionRate(w),
      Jitter(w.arrivalTimes), Mean(InterArrival(w.arrivalTimes)), Mean(sizes), Root(Variance(sizes)),
      Burstiness(throughput, h.throughput), RttMean(w.rttSamples), RttStd(w.rttSamples), Gradient(h.rtt),
      w.ceMarks, CeMarkRate(w), w.ect1Marks, Mean(h.rtt), RollingSlope(h.rtt))
  }

  /** The row dictionary, with its keys in the order the source writes them. */
  function MakeRow(clock: string, f: Features, q: QueueStats): (row: Row)
    ensures |row| == |Columns|
  {
    [("timestamp", Text(clock)),
     ("label", Num(f.attackLabel as real)),
     ("throughput_bps", Num(f.throughput)),
     ("goodput_bps", Num(f.goodput)),
     ("packet_rate_pps", Num(f.pps)),
     ("packet_loss_rate", Num(0.0)),
     ("retransmission_rate", Num(f.retransmissionRate)),
     ("jitter_ms", f.jitter),
     ("inter_arrival_time_mean", Num(f.interArrivalMean)),
     ("packet_size_mean", Num(f.packetSizeMean)),
     ("packet_size_std", f.packetSizeStd),
     ("burstiness", Num(f.burstiness)),
     ("rtt_mean", Num(f.rttMean)),
     ("rtt_std", f.rttStd),
     ("rtt_gradient", Num(f.rttGradient)),
     ("ce_count", Num(f.ceCount as real)),
     ("ce_mark_rate", Num(f.ceMarkRate)),
     ("ect1_count", Num(f.ect1Count as real)),
     ("cwnd_growth_rate", Num(0.0)),
     ("rolling_mean_rtt", Num(f.rollingMeanRtt)),
     ("rolling_slope_rtt", Num(f.rollingSlopeRtt)),
     ("l4s_queue_delay_ms", Num(q.l4sDelayMs as real)),
     ("classic_queue_delay_ms", Num(q.classicDelayMs as real))]
  }

  /**
   * The body of the processing loop for one snapshot: an empty snapshot gives
   * no row and leaves the histories as they were; otherwise the RTT mean and
   * the throughput are pushed and one row is made.
   */
  function Process(w: Window, h: Histories, clock: string): (r: (Histories, Option<Row>))
    requires w.packetCount > 0 ==> |w.packetSizes| > 0
    ensures w.packetCount == 0 ==> r == (h, None)
    ensures w.packetCount > 0 ==> r.0 == Pushed(w, h) && r.1.Some?
  {
    if w.packetCount == 0 then (h, None)
    else
      var h' := Pushed(w, h);
      (h', Some(MakeRow(clock, Derive(w, h'), QueueReading)))
  }

  // ---------------------------------------------------------------- row properties

  function Keys(row: Row): (k: seq<string>)
    ensures |k| == |row| && forall i :: 0 <= i < |row| ==> k[i] == row[i].0
  {
    seq(|row|, i requires 0 <= i < |row| => row[i].0)
  }

  /** The row's keys are exactly the header columns, in order. */
  lemma {:induction false} RowKeys(clock: string, f: Features, q: QueueStats)
    ensures Keys(MakeRow(clock, f, q)) == Columns
  {
  }

  /** The loss rate, the window growth rate and both queue delays are always 0. */
  lemma {:induction false} RowConstants(clock: string, f: Features)
    ensures var row := MakeRow(clock, f, QueueReading);
            && row[5] == ("packet_loss_rate", Num(0.0)) && row[18] == ("cwnd_growth_rate", Num(0.0))
            && row[21] == ("l4s_queue_delay_ms", Num(0.0)) && row[22] == ("classic_queue_delay_ms", Num(0.0))
  {
  }

  /**
   * `rolling_mean_rtt` is over the history including the current RTT mean:
   * the mean of the previous values and m, or of the last nine and m once the
   * history is full.
   */
  lemma {:induction false} RollingMeanAfterPush(h: seq<real>, m: real)
    requires |h| <= Capacity
    ensures |h| < Capacity ==> Mean(Push(h, m)) == Mean(h + [m])
    ensures |h| == Capacity ==> Mean(Push(h, m)) == Mean(h[1..] + [m])
  {
    if |h| < Capacity {
      PushBelowCapacity(h, m);
    } else {
      PushAtCapacity(h, m);
    }
  }

  /** A pushed snapshot keeps both histories within ten entries and of equal length. */
  lemma {:induction false} ProcessBounded(w: Window, h: Histories, clock: string)
    requires w.packetCount > 0 ==> |w.packetSizes| > 0
    requires HistoriesBounded(h)
    ensures HistoriesBounded(Process(w, h, clock).0)
  {
  }

  // ---------------------------------------------------------------- the loop

  /** A captured line, or the end of a window with the wall-clock text for its row. */
  datatype Event = Packet(line: string) | Tick(clock: string)

  /** An event whose line has been parsed. */
  datatype Input = Arrival(packet: Option<CaptureRecord>) | Close(clock: string)

  function Parsed(e: Event): Input {
    match e
    case Packet(line) => Arrival(ParseLine(line))
    case Tick(clock) => Close(clock)
  }

  /** The events with their lines parsed, one input per event, in order. */
  function Inputs(events: seq<Event>): (xs: seq<Input>)
    ensures |xs| == |events|
  {
    if |events| == 0 then [] else Inputs(events[..|events| - 1]) + [Parsed(events[|events| - 1])]
  }

  lemma {:induction false} InputsStep(events: seq<Event>, i: nat)
    requires i < |events|
    ensures Inputs(events[..i + 1]) == Inputs(events[..i]) + [Parsed(events[i])]
  {
    var p := events[..i + 1];
    assert p[..i] == events[..i] && p[i] == events[i];
  }

  /** The collector's globals: the current window, the two histories, and the rows appended to the CSV. */
  datatype State = State(window: Window, histories: Histories, rows: seq<Row>)

  const Start: State := State(EmptyWindow, Histories([], []), [])

  predicate Invariant(s: State) {
    Consistent(s.window) && HistoriesBounded(s.histories)
    && forall i :: 0 <= i < |s.rows| ==> Keys(s.rows[i]) == Columns
  }

  /** The end of a window: snapshot, start a fresh window, then process the snapshot. */
  function Rotate(s: State, clock: string): (s': State)
    requires Consistent(s.window)
    ensures s'.window == EmptyWindow
    ensures s.window.packetCount == 0 ==> s'.histories == s.histories && s'.rows == s.rows
    ensures s.window.packetCount > 0 ==> |s'.rows| == |s.rows| + 1 && s'.rows[..|s.rows|] == s.rows
  {
    var (h, row) := Process(s.window, s.histories, clock);
    State(EmptyWindow, h, if row.Some? then s.rows + [row.value] else s.rows)
  }

  lemma {:induction false} RotateEmpty(s: State, clock: string)
    requires Consistent(s.window) && s.window.packetCount == 0
    ensures Rotate(s, clock) == State(EmptyWindow, s.histories, s.rows)
  {
  }

  lemma {:induction false} RotateNonEmpty(s: State, clock: string)
    requires Consistent(s.window) && s.window.packetCount > 0
    ensures var h := Pushed(s.window, s.histories);
            Rotate(s, clock) == State(EmptyWindow, h, s.rows + [MakeRow(clock, Derive(s.window, h), QueueReading)])
  {
  }

  /** A parsed line goes into the current window (a dropped one changes nothing); a window end rotates. */
  function Step(s: State, x: Input): State
    requires Consistent(s.window)
  {
    match x
    case Arrival(o) => s.(window := Apply(s.window, o))
    case Close(clock) => Rotate(s, clock)
  }

  lemma {:induction false} ApplyConsistent(w: Window, o: Option<CaptureRecord>)
    requires Consistent(w)
    ensures Consistent(Apply(w, o))
  {
    if o.Some? {
      AccumulateConsistent(w, o.value);
    }
  }

  lemma {:induction false} RotateInvariant(s: State, clock: string)
    requires Invariant(s)
    ensures Invariant(Rotate(s, clock))
  {
    var (h, row) := Process(s.window, s.histories, clock);
    ProcessBounded(s.window, s.histories, clock);
    if row.Some? {
      RowKeys(clock, Derive(s.window, h), QueueReading);
    }
  }

  /** Every step keeps the window consistent, the histories bounded and every row keyed by the columns. */
  lemma {:induction false} StepInvariant(s: State, x: Input)
    requires Invariant(s)
    ensures Invariant(Step(s, x))
  {
    match x
    case Arrival(o) =>
      ApplyConsistent(s.window, o);
    case Close(clock) =>
      RotateInvariant(s, clock);
  }

  /** The state after a sequence of inputs, with the invariant proved along the way. */
  function Run(s: State, xs: seq<Input>): (s': State)
    requires Invariant(s)
    ensures Invariant(s')
  {
    if |xs| == 0 then s
    else
      var p := Run(s, xs[..|xs| - 1]);
      StepInvariant(p, xs[|xs| - 1]);
      Step(p, xs[|xs| - 1])
  }

  /** The number of window ends in a sequence of inputs. */
  function Ticks(xs: seq<Input>): (n: nat)
    ensures n <= |xs|
  {
    if |xs| == 0 then 0 else Ticks(xs[..|xs| - 1]) + (if xs[|xs| - 1].Close? then 1 else 0)
  }

  /** At most one row per window end: empty windows add none. */
  lemma {:induction false} RowsPerTick(s: State, xs: seq<Input>)
    requires Invariant(s)
    ensures |s.rows| <= |Run(s, xs).rows| <= |s.rows| + Ticks(xs)
  {
    if |xs| > 0 {
      RowsPerTick(s, xs[..|xs| - 1]);
    }
  }

  // ---------------------------------------------------------------- the class

  /** The collector's globals as one object: `current_window`, the histories and the CSV rows. */
  class Collector {
    var current: MetricsWindow
    var historyRtt: seq<real>
    var historyThroughput: seq<real>
    var rows: seq<Row>

    function Value(): State
      reads this, current
    {
      State(current.Value(), Histories(historyRtt, historyThroughput), rows)
    }

    constructor()
      ensures Value() == Start && fresh(current)
    {
      current := new MetricsWindow();
      historyRtt, historyThroughput, rows := [], [], [];
    }

    /** The capture thread's update for one line. */
    method Capture(line: string)
      modifies current
      ensures Value() == old(Value()).(window := Apply(old(current.Value()), ParseLine(line)))
    {
      current.Ingest(line);
    }

    /** One turn of the processing loop: snapshot, fresh window, then the snapshot's row if it has packets. */
    method Tick(clock: string)
      requires Consistent(current.Value())
      modifies this
      ensures Value() == Rotate(old(Value()), clock)
      ensures fresh(current)
    {
      ghost var s := Value();
      var snapshot := current;
      current := new MetricsWindow();
      if snapshot.packetCount == 0 {
        RotateEmpty(s, clock);
        return;
      }
      var h' := Pushed(snapshot.Value(), Histories(historyRtt, historyThroughput));
      historyRtt, historyThroughput := h'.rtt, h'.throughput;
      rows := rows + [MakeRow(clock, Derive(snapshot.Value(), h'), QueueReading)];
      RotateNonEmpty(s, clock);
    }

    /** One event: a line for the capture thread or a window end for the processing loop. */
    method Handle(e: Event)
      requires Consistent(current.Value())
      modifies this, current
      ensures Value() == Step(old(Value()), Parsed(e))
      ensures current == old(current) || fresh(current)
    {
      match e {
        case Packet(line) => Capture(line);
        case Tick(clock) => Tick(clock);
      }
    }

    /** Both threads' work for a sequence of events. */
    method RunEvents(events: seq<Event>)
      requires Invariant(Value())
      modifies this, current
      ensures Value() == Run(old(Value()), Inputs(events))
    {
      var i := 0;
      while i < |events|
        invariant 0 <= i <= |events|
        invariant Value() == Run(old(Value()), Inputs(events[..i]))
        invariant current == old(current) || fresh(current)
      {
        InputsStep(events, i);
        Handle(events[i]);
        i := i + 1;
      }
      assert events[..|events|] == events;
    }
  }
}
