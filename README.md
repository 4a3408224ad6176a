# L4S router telemetry: collector and detector, modelled in Dafny

The repository runs two Python scripts on a router that carries L4S traffic.
Both read the comma-separated, line-per-packet output of a packet capture tool.

- **The collector** (`scripts/router/coleta_metrics.py`) builds a training data set.
  - A `MetricsWindow` accumulates byte, packet, retransmission and ECN counters for each packet of a one-second window.
  - Every second the processing loop takes the window as a snapshot and installs a fresh one. It skips an empty snapshot.
  - For a non-empty snapshot it pushes the RTT mean and throughput into two ten-entry histories and derives about twenty features. These include rates, the inter-arrival mean, RTT statistics, the RTT gradient, its rolling mean and least-squares slope, and burstiness.
  - It labels the window an attack when the attacker's bytes exceed 10% of all bytes, and writes one CSV row.
- **The detector** (`scripts/router/ids_l4s.py`) uses the trained model.
  - It accumulates a `current_stats` dictionary for each packet.
  - After every line it compares the clock with `last_check`. When a window has passed it computes the eight training features, asks the classifier for a verdict and resets.

Both scripts read the two-bit ECN field as in section 5 of RFC 3168. They count 3 as CE (Congestion Experienced) and 1 as ECT(1), the L4S identifier of RFC 9331.

The Dafny project has eight modules, one per file:

| module | file | what it holds |
|---|---|---|
| `Wrappers` | wrappers.dfy | `Option`: a parse that succeeded, or one whose conversion raised; `Accepted`, the values of the parses that succeeded |
| `Ecn` | ecn.dfy | the codepoints and the shared "CE, else ECT(1), else neither" classification |
| `Text` | text.dfy | the Python string built-ins the parsers use: `strip`, `split(',')`/`join`, `isdigit`, `int()`, `int(s, 16)`, `float()`, with round-trip lemmas |
| `Stats` | stats.dfy | sums, `np.mean`, `np.diff`, the population variance, `sorted`, min and max; the telescoping mean gap |
| `History` | history.dfy | a `deque(maxlen=10)` as a sequence; the gradient; the least-squares slope of `np.polyfit(x, y, 1)`, proved to solve the normal equations |
| `Capture` | capture.dfy | the collector's line parser; the `Window` value with its invariants and its field-by-field summary; the `MetricsWindow` class updated in place |
| `Collector` | collector.dfy | the collector's features, label and row; the snapshot-and-replace rotation; the `Collector` class that handles one event at a time |
| `Detector` | detector.dfy | the detector's lenient parser; the `CurrentStats` class; the eight features and the decision; the `start_ids` loop as a method against a functional `Run` |

State that the source changes in place is a class:
- `Capture.MetricsWindow` for `MetricsWindow`;
- `Collector.Collector` for the collector's `current_window` and histories;
- `Detector.CurrentStats` for `current_stats`.

Each class's methods are proved against a function on values: `Accumulate`, `Rotate`, `Step`, `Run`, `Record` and `Observe`. The lemmas are proved about those functions.

Some inputs come from outside the scripts. Each is a parameter of the model:
- the clock readings, `time.time()`;
- the wall-clock text of a row, `strftime`;
- the capture tool's lines;
- the classifier, `clf.predict`, as a total function `FeatureRow -> Option<int>`, where `None` is a prediction that raised.

Inputs supplied as lines or parameters are not modelled further. The queue lookup `get_queue_stats` is the constant `Collector.QueueReading`: it runs `tc -s qdisc show` but discards what it reads, and both of its paths return zeros.

Four behaviours of the code are easy to miss:
- The collector's `jitter_ms` and `inter_arrival_time_mean` come from the gaps of the arrival times in arrival order. They are not sorted, unlike the detector's `iat_mean` (`InterArrivalUnsorted` shows a negative mean gap).
- A collector ECN field that is neither empty, `0x` hexadecimal nor a decimal integer makes `int()` raise. The whole line is dropped, rather than read as Not-ECT. In the detector, for ASCII input, only a malformed `0x` field drops the line.
- The collector pushes the current RTT mean and throughput into the histories before it computes the gradient, the rolling mean, the slope and burstiness. So burstiness divides by a mean that already includes the current throughput (`FirstWindowBurstiness`). The gradient is still "current minus previous" (`GradientAfterPush`).
- The collector's length guard is `< 6`, but the line's seventh field is always read. A six-field line therefore passes the guard and is then dropped by the exception handler (`SixFieldsDropped`).

## Model

| member | source | states |
|---|---|---|
| Ecn.MarkOf | scripts/router/coleta_metrics.py:126-129 | a parsed ECN value is CE exactly when it is 3 and ECT(1) exactly when it is 1; every other value is unmarked |
| Ecn.MarkIncrements | scripts/router/ids_l4s.py:97-98 | a packet increments the CE counter iff its ECN is 3, the ECT(1) counter iff it is 1, and never both |
| Text.TrimLeft | scripts/router/coleta_metrics.py:104 | the result is a suffix of the input, starts with no white space, and everything removed is white space |
| Text.TrimRight | scripts/router/coleta_metrics.py:104 | the result is a prefix of the input, ends with no white space, and everything removed is white space |
| Text.Strip | scripts/router/coleta_metrics.py:104 | `strip()` leaves no white space at either end |
| Text.StripSlice | scripts/router/ids_l4s.py:67 | `strip()` returns one slice s[i..j] of its input, and everything before i and from j on is white space |
| Text.StripNoSpace | scripts/router/ids_l4s.py:67 | a string with no white space at either end is its own `strip()` |
| Text.Split | scripts/router/coleta_metrics.py:104 | `split(',')` gives one more field than there are separators, no field contains the separator, and joining the fields gives the input back |
| Text.SplitJoin | scripts/router/ids_l4s.py:67 | splitting the join of separator-free fields gives exactly those fields back |
| Text.JoinUnstripped | scripts/router/ids_l4s.py:67 | a joined line whose first field starts and whose last field ends without white space is unchanged by `strip()` |
| Text.StartsWith | scripts/router/coleta_metrics.py:112 | `str.startswith(prefix)`: the prefix fits in the text and is its first characters; also the `0x` test at ids_l4s.py:81 |
| Text.IsDigits | scripts/router/ids_l4s.py:82 | `str.isdigit()` for ASCII text: non-empty and every character a digit; also the window test at ids_l4s.py:89 |
| Text.ShowNat | scripts/router/ids_l4s.py:82 | the decimal text of a number is a non-empty digit string (`isdigit()` holds) |
| Text.DigitsValueShowNat | scripts/router/ids_l4s.py:82 | the value of the decimal text of n is n |
| Text.ParseInt | scripts/router/coleta_metrics.py:109-110 | `int(s)` succeeds exactly when the stripped text, after an optional sign, is a digit string |
| Text.ParseIntShowNat | scripts/router/ids_l4s.py:74 | `int(str(n)) == n` |
| Text.ParseHexPrefixed | scripts/router/coleta_metrics.py:112 | `int(f, 16)` on a `0x` field succeeds only when a hex digit follows the prefix |
| Text.HexFieldUnstripped | scripts/router/ids_l4s.py:81 | a `0x` field followed only by hex digits reads as the hexadecimal value of those digits |
| Text.FractionValue | scripts/router/coleta_metrics.py:107 | the digits after a decimal point are worth at least 0 and less than 1 |
| Text.FixedPointValue | scripts/router/coleta_metrics.py:107 | `<whole>.<frac>` lies in [whole, whole + 1) |
| Text.ParseFloat | scripts/router/coleta_metrics.py:107 | `float(s)` on decimal notation: the stripped text is an optional sign and digits with an optional fraction, and `None` is a text on which `float()` raises; `ParseFloatFixedPoint` and `ParseFloatShowNat` read written numbers back |
| Text.ParseUnsignedDecimal | scripts/router/coleta_metrics.py:111 | an unsigned decimal literal is never negative |
| Text.ParseFloatFixedPoint | scripts/router/coleta_metrics.py:107 | `float()` reads a timestamp written as `<seconds>.<fraction>` exactly |
| Text.ParseFloatShowNat | scripts/router/ids_l4s.py:73 | `float()` reads an integer text as that integer |
| Text.DotIndex | scripts/router/coleta_metrics.py:107 | the index of the first '.', or the length when there is none |
| Text.DecimalCommaFree | scripts/router/coleta_metrics.py:104 | a written decimal contains no comma, so it stays one field |
| Text.ShowNatCommaFree | scripts/router/coleta_metrics.py:104 | a written integer contains no comma, so it stays one field |
| Stats.SumInt | scripts/router/ids_l4s.py:138 | `sum` of a list of integers, left to right; `SumIntAppend` gives its step |
| Stats.SumReal | scripts/router/coleta_metrics.py:182 | the sum of a list of reals, left to right; `SumRealAppend` gives its step |
| Stats.SumIntAppend | scripts/router/ids_l4s.py:138 | the sum of s + [x] is the sum of s plus x |
| Stats.SumRealAppend | scripts/router/coleta_metrics.py:182 | the sum of s + [x] is the sum of s plus x |
| Stats.Mean | scripts/router/coleta_metrics.py:182 | `np.mean` of a non-empty list: its sum over its length; `MeanWithinRange` places it between min and max |
| Stats.MeanInt | scripts/router/ids_l4s.py:150-153 | `np.mean` of a non-empty integer list, the detector's windows and lengths: the sum over the length; `Detector.FeatureVolumes` states its value in the features |
| Stats.MeanFromSum | scripts/router/coleta_metrics.py:182 | `np.mean` is the sum over the count |
| Stats.Min | scripts/router/ids_l4s.py:143-145 | the minimum is an element and is at most every element |
| Stats.Max | scripts/router/ids_l4s.py:143-145 | the maximum is an element and is at least every element |
| Stats.MeanWithinRange | scripts/router/coleta_metrics.py:182 | the mean lies between the least and the greatest element |
| Stats.SumWithinRange | scripts/router/coleta_metrics.py:182 | elements in [lo, hi] sum to between n·lo and n·hi |
| Stats.SquaredDeviations | scripts/router/coleta_metrics.py:179 | element i is (s[i] - m)², for every i |
| Stats.Variance | scripts/router/coleta_metrics.py:179 | `np.std` squared, with ddof 0: the mean of the squared deviations from the mean; `VarianceNonNegative` and `VarianceOfConstant` are proved about it |
| Stats.VarianceNonNegative | scripts/router/coleta_metrics.py:179 | the population variance is never negative, so `np.std` is a real square root |
| Stats.VarianceOfConstant | scripts/router/coleta_metrics.py:225 | the variance of a list of equal values is 0 |
| Stats.MeanOfConstant | scripts/router/coleta_metrics.py:224 | the mean of a list of equal values is that value |
| Stats.Gaps | scripts/router/coleta_metrics.py:178 | `np.diff` has one element fewer than its non-empty input |
| Stats.GapsAt | scripts/router/ids_l4s.py:144 | element i of `np.diff(s)` is s[i+1] - s[i] |
| Stats.SumGaps | scripts/router/ids_l4s.py:144-145 | the gaps sum to the last element minus the first (telescoping) |
| Stats.MeanGap | scripts/router/coleta_metrics.py:178 | the mean gap of n > 1 values is (last - first)/(n - 1) |
| Stats.TailSorted | scripts/router/ids_l4s.py:143 | the tail of a sorted list is sorted |
| Stats.PrependSorted | scripts/router/ids_l4s.py:143 | a value no greater than the head of a sorted list can go in front of it |
| Stats.Insert | scripts/router/ids_l4s.py:143 | inserting into a sorted list gives a sorted list holding the same values plus the new one |
| Stats.InsertBehindHead | scripts/router/ids_l4s.py:143 | the head followed by a sorted insertion into the tail is sorted and is a permutation of the list plus the new value |
| Stats.Sort | scripts/router/ids_l4s.py:143 | `sorted()` returns a sorted permutation of its input |
| Stats.SortedEnds | scripts/router/ids_l4s.py:143 | the first and last elements of a sorted permutation are the input's minimum and maximum |
| Stats.SortedMeanGap | scripts/router/ids_l4s.py:142-145 | the mean gap of the sorted values is (max - min)/(n - 1) and is never negative |
| Stats.SortedPermutationMeanGap | scripts/router/ids_l4s.py:142-145 | the same for any sorted permutation of the values |
| Stats.NonNegativeQuotient | scripts/router/ids_l4s.py:145 | a non-negative spread over a positive count is non-negative |
| History.Push | scripts/router/coleta_metrics.py:42-43 | appending to a `deque(maxlen=10)` grows it by one below capacity and keeps it at 10 at capacity; the new value is last |
| History.PushBelowCapacity | scripts/router/coleta_metrics.py:186-187 | below capacity nothing is evicted: the deque becomes h + [x] |
| History.PushAtCapacity | scripts/router/coleta_metrics.py:186-187 | at capacity exactly the oldest entry is evicted |
| History.PushKeepsPrevious | scripts/router/coleta_metrics.py:193 | after a push, the second-to-last entry is the previous newest one |
| History.Gradient | scripts/router/coleta_metrics.py:191-193 | `history[-1] - history[-2]` with two entries or more, else 0 |
| History.GradientAfterPush | scripts/router/coleta_metrics.py:191-193 | the gradient read after appending is the current value minus the previous window's, and 0 for the first window |
| History.SumXClosed | scripts/router/coleta_metrics.py:201 | Σ i for i < n is n(n-1)/2 |
| History.SumXXClosed | scripts/router/coleta_metrics.py:201 | Σ i² for i < n is (n-1)n(2n-1)/6 |
| History.DetClosed | scripts/router/coleta_metrics.py:202 | the normal-equation determinant for x = 0..n-1 is n²(n-1)(n+1)/12 |
| History.DetPositive | scripts/router/coleta_metrics.py:199-202 | with two or more points the determinant is positive, so the fit is determined |
| History.DetPositiveReal | scripts/router/coleta_metrics.py:199-202 | the same determinant, computed on reals as the fit does, is positive |
| History.DetPositiveAt | scripts/router/coleta_metrics.py:199-202 | the determinant is positive for given sums of x and x² over n ≥ 2 points |
| History.ResidualsExpand | scripts/router/coleta_metrics.py:202 | the residuals of a + b·x sum to Σy - n·a - b·Σx |
| History.WeightedResidualsExpand | scripts/router/coleta_metrics.py:202 | the index-weighted residuals sum to Σxy - a·Σx - b·Σx² |
| History.WeightedResidualsSplit | scripts/router/coleta_metrics.py:202 | the weighted residuals split into Σxy, the a-terms and the b-terms |
| History.IndexSumScales | scripts/router/coleta_metrics.py:202 | Σ a·i is a·Σ i |
| History.SquareSumScales | scripts/router/coleta_metrics.py:202 | Σ b·i² is b·Σ i² |
| History.FitSlope | scripts/router/coleta_metrics.py:202 | the slope from the sums n, Σx, Σx², Σy and Σxy by Cramer's rule; `NormalSolution` proves it the only solution of the normal equations when n and the determinant are positive |
| History.FitIntercept | scripts/router/coleta_metrics.py:202 | the intercept (Σy - slope·Σx)/n of the same line |
| History.Slope | scripts/router/coleta_metrics.py:200-202 | `np.polyfit(np.arange(len(y)), y, 1)[0]`, the least-squares slope through (i, y[i]); `NormalEquations` proves it the only one |
| History.Intercept | scripts/router/coleta_metrics.py:200-202 | the intercept of the same least-squares line |
| History.RollingSlope | scripts/router/coleta_metrics.py:198-202 | `rolling_slope_rtt`: 0 unless the history holds more than three points, and otherwise `Slope` of the history |
| History.NormalEquations | scripts/router/coleta_metrics.py:198-202 | a line a + b·x has zero residual sum and zero index-weighted residual sum exactly when b is `Slope(y)` and a is `Intercept(y)`: the computed slope is the least-squares slope, and the only one |
| History.NormalEquationsAt | scripts/router/coleta_metrics.py:198-202 | the same equivalence, for the sums and coefficients named |
| History.ResidualsAsSum | scripts/router/coleta_metrics.py:202 | the residual sum in terms of the named sums |
| History.WeightedResidualsAsSum | scripts/router/coleta_metrics.py:202 | the weighted residual sum in terms of the named sums |
| History.NormalSolution | scripts/router/coleta_metrics.py:202 | the 2×2 normal system has exactly one solution, the one Cramer's rule gives |
| History.NormalSolutionUnique | scripts/router/coleta_metrics.py:202 | any solution of the normal equations is the Cramer's rule one |
| History.NormalSolutionSolves | scripts/router/coleta_metrics.py:202 | the Cramer's rule coefficients solve the normal equations |
| History.Line | scripts/router/coleta_metrics.py:200-201 | n points a + d·i, one per index |
| History.SlopeOfLine | scripts/router/coleta_metrics.py:198-202 | points exactly on a line have that line as their fit: its slope and its intercept |
| History.LineResiduals | scripts/router/coleta_metrics.py:202 | a line's own points leave zero residuals and zero weighted residuals |
| History.SlopeExample | scripts/router/coleta_metrics.py:198-202 | the rolling slope of the RTT history [10, 12, 14, 16, 18] is 2 |
| History.FlatSlope | scripts/router/coleta_metrics.py:202 | a flat history has slope 0 |
| Capture.ParseLength | scripts/router/coleta_metrics.py:109-110 | an empty length field counts as 0; otherwise the field goes through `int()` |
| Capture.ParseRtt | scripts/router/coleta_metrics.py:111 | an empty RTT field is no sample; otherwise the field parses exactly when `float()` succeeds, and the sample is seconds × 1000 |
| Capture.ParseLine | scripts/router/coleta_metrics.py:104-113 | `line.strip().split(',')` followed by `ParseFields`; `LineRoundTrip` reads a written line back |
| Capture.ParseFields | scripts/router/coleta_metrics.py:104-113 | a line is accepted exactly when it has at least seven fields and the timestamp, both lengths, the RTT and the ECN field all convert; fewer than seven fields is a drop |
| Capture.Convert | scripts/router/coleta_metrics.py:107-113 | a record exists exactly when every conversion succeeded |
| Capture.AcceptedFields | scripts/router/coleta_metrics.py:107-113 | an accepted record holds the raw source field, each converted number, and "retransmission field not empty" |
| Capture.SixFieldsDropped | scripts/router/coleta_metrics.py:105-136 | a six-field line passes the `< 6` guard and is still dropped |
| Capture.LineFields | scripts/router/coleta_metrics.py:104 | a line joined from comma-free fields, with no white space at its ends, is parsed field by field |
| Capture.ParseEcn | scripts/router/coleta_metrics.py:112 | `int(f, 16)` for a `0x` field, `int(f)` for any other non-empty field, 0 for an empty one, and `None` where `int` raises; `EcnHex`, `EcnDecimal`, `EcnBareHexPrefix` and `EcnEmptyOrMalformed` state each case |
| Capture.EcnHex | scripts/router/coleta_metrics.py:112 | a `0x` ECN field reads as hexadecimal |
| Capture.EcnBareHexPrefix | scripts/router/coleta_metrics.py:112-136 | a bare `0x` raises, and the line is dropped |
| Capture.EcnDecimal | scripts/router/coleta_metrics.py:112 | a decimal ECN field reads as decimal |
| Capture.EcnEmptyOrMalformed | scripts/router/coleta_metrics.py:112-136 | an empty ECN field is Not-ECT; a field that is neither `0x`-prefixed nor an integer drops the line |
| Capture.WrittenFields | scripts/router/coleta_metrics.py:86-96 | the capture tool writes seven fields per packet |
| Capture.RttRoundTrip | scripts/router/coleta_metrics.py:111 | a written RTT field reads back as the sample it was written from, in milliseconds |
| Capture.LineRoundTrip | scripts/router/coleta_metrics.py:86-113 | a line as the capture tool writes it is read back as the values it was written from: timestamp, source, lengths, RTT in ms, ECN, and the flag as "1 or empty" |
| Capture.FieldsRoundTrip | scripts/router/coleta_metrics.py:107-113 | the written fields convert to the values they were written from |
| Capture.TimestampField | scripts/router/coleta_metrics.py:107 | a written timestamp converts back to its value |
| Capture.LengthField | scripts/router/coleta_metrics.py:109 | a written length converts back to its value |
| Capture.FieldsAccepted | scripts/router/coleta_metrics.py:107-113 | a line whose conversions all succeed is accepted with exactly those values |
| Capture.RttOfParsed | scripts/router/coleta_metrics.py:111 | a non-empty RTT field that parses as v gives the sample v·1000 |
| Capture.WrittenFieldsCommaFree | scripts/router/coleta_metrics.py:86-96 | no written field contains the separator |
| Capture.KeepsRtt | scripts/router/coleta_metrics.py:122 | `if rtt:`: a sample is kept only when the RTT field was present and its value is not 0 |
| Capture.Accumulate | scripts/router/coleta_metrics.py:116-133 | one accepted packet changes each counter and list by exactly its own part. The count grows by 1; both byte sums grow by the lengths; the length and timestamp lists grow by one each; a non-zero RTT adds a sample; a retransmission increments its counter; ECN 3 increments only CE and ECN 1 only ECT(1); the attacker's bytes grow only for the attacker's source |
| Capture.Apply | scripts/router/coleta_metrics.py:102-136 | a dropped line leaves the window exactly as it was; an accepted one is accumulated (all-or-nothing) |
| Capture.ParseLines | scripts/router/coleta_metrics.py:100-104 | one parse result per line |
| Capture.IngestAll | scripts/router/coleta_metrics.py:100-136 | the window after the capture loop has applied the parse results in order; `IngestAllConsistent` and `IngestAllSummary` are proved about it |
| Capture.IngestLines | scripts/router/coleta_metrics.py:100-136 | the window after the capture loop has read the lines in order; `IngestLinesSummary` is proved about it |
| Capture.IngestAllAppend | scripts/router/coleta_metrics.py:100-136 | one more line is one more update |
| Capture.EmptyWindowInvariants | scripts/router/coleta_metrics.py:26-36 | the reset window satisfies the invariants |
| Capture.AccumulateConsistent | scripts/router/coleta_metrics.py:116-133 | one packet preserves the invariants: count = number of sizes = number of timestamps; bytes = sum of sizes; CE + ECT(1) ≤ count; retransmissions ≤ count; RTT samples ≤ count |
| Capture.AccumulateAttackerWithin | scripts/router/coleta_metrics.py:117-133 | with a non-negative frame length, the attacker's bytes stay within the window's bytes |
| Capture.IngestAllConsistent | scripts/router/coleta_metrics.py:100-136 | the invariants hold after any sequence of lines, accepted or dropped |
| Capture.IngestAllAttackerWithin | scripts/router/coleta_metrics.py:100-136 | with no negative frame length, the attacker's bytes never exceed the window's bytes |
| Wrappers.Accepted | scripts/router/coleta_metrics.py:100-136 | the records of the lines that were not dropped, in order, at most as many as the lines; both scripts' summaries are stated over it |
| Capture.Lengths | scripts/router/coleta_metrics.py:119 | the frame lengths of the records, in order |
| Capture.Payloads | scripts/router/coleta_metrics.py:118 | the payload lengths of the records, in order |
| Capture.Timestamps | scripts/router/coleta_metrics.py:120 | the timestamps of the records, in order |
| Capture.CountRetrans | scripts/router/coleta_metrics.py:123 | the retransmissions are at most the records |
| Capture.CountCe | scripts/router/coleta_metrics.py:126-127 | the CE packets are at most the records |
| Capture.CountEct1 | scripts/router/coleta_metrics.py:128-129 | the ECT(1) packets are at most the records |
| Capture.RttSamplesOf | scripts/router/coleta_metrics.py:122 | the kept RTT samples are at most the records |
| Capture.AccumulateSummary | scripts/router/coleta_metrics.py:116-133 | the in-order update of a summary by one more record is the summary of the longer list |
| Capture.AccumulateMatches | scripts/router/coleta_metrics.py:116-133 | a window with every field as the update computes it is the update's result |
| Capture.SameFields | scripts/router/coleta_metrics.py:26-36 | two windows with equal fields are equal |
| Capture.SummaryStep | scripts/router/coleta_metrics.py:116-133 | each field of the summary after one more record, from the same field before it |
| Capture.LengthsAppend | scripts/router/coleta_metrics.py:117-119 | one more record adds its length to the list and to the sum |
| Capture.PayloadsAppend | scripts/router/coleta_metrics.py:118 | one more record adds its payload to the sum |
| Capture.TimestampsAppend | scripts/router/coleta_metrics.py:120 | one more record appends its timestamp |
| Capture.CountsAppend | scripts/router/coleta_metrics.py:123-129 | one more record adds 1 to exactly the counters it matches |
| Capture.AttackerAndRttAppend | scripts/router/coleta_metrics.py:122-133 | one more record adds its length to the attacker's sum only for the attacker's source, and its RTT only when it is kept |
| Capture.Summary | scripts/router/coleta_metrics.py:116-133 | the window of a list of accepted packets, field by field: the sums of lengths and payloads; the counts of packets, retransmissions, CE and ECT(1); the kept RTTs, sizes and times in order; the attacker's bytes |
| Capture.IngestAllSummary | scripts/router/coleta_metrics.py:100-136 | the window after any parse results is the summary of the accepted records (counts, sums, ordered lists), independent of how the update is ordered |
| Capture.IngestLinesSummary | scripts/router/coleta_metrics.py:100-136 | the window after any lines is the summary of the accepted lines, and is consistent |
| Capture.MetricsWindow.constructor | scripts/router/coleta_metrics.py:23-24 | a new window is the reset window |
| Capture.MetricsWindow.Reset | scripts/router/coleta_metrics.py:26-36 | every counter becomes 0 and every list empty |
| Capture.MetricsWindow.Add | scripts/router/coleta_metrics.py:116-133 | the in-place updates leave the object holding `Accumulate` of the old window |
| Capture.MetricsWindow.Ingest | scripts/router/coleta_metrics.py:102-136 | one line updates the object exactly as `Apply` says: drop or full update |
| Capture.CaptureTraffic | scripts/router/coleta_metrics.py:100-136 | the loop over the lines leaves the window as `IngestLines` of the old one |
| Collector.RatesPerSecond | scripts/router/coleta_metrics.py:172-174 | over the one-second window, throughput and goodput are 8 × bytes, the packet rate is the count, and the CE rate is the CE count |
| Collector.Throughput | scripts/router/coleta_metrics.py:172 | `(bytes_total * 8) / WINDOW_SIZE` |
| Collector.Goodput | scripts/router/coleta_metrics.py:173 | `(bytes_useful * 8) / WINDOW_SIZE` |
| Collector.PacketRate | scripts/router/coleta_metrics.py:174 | `packet_count / WINDOW_SIZE` |
| Collector.CeMarkRate | scripts/router/coleta_metrics.py:231 | `ce_marks / WINDOW_SIZE` |
| Collector.ThroughputExample | scripts/router/coleta_metrics.py:172 | three 1000-byte frames are 24000 bit/s |
| Collector.RetransmissionRate | scripts/router/coleta_metrics.py:221 | the retransmission rate is in [0, 1] when retransmissions ≤ count, 0 for no packets, and 1 when every packet was a retransmission |
| Collector.InterArrival | scripts/router/coleta_metrics.py:178 | the gap list is never empty (`[0]` for fewer than two arrivals) |
| Collector.InterArrivalMean | scripts/router/coleta_metrics.py:178-223 | the mean gap is (last - first)/(n - 1) over the unsorted arrival times, and 0 for fewer than two |
| Collector.InterArrivalUnsorted | scripts/router/coleta_metrics.py:178 | out-of-order arrivals give a negative mean gap |
| Collector.Jitter | scripts/router/coleta_metrics.py:179 | the jitter is a square root |
| Collector.JitterRoot | scripts/router/coleta_metrics.py:179 | the jitter's radicand is never negative, and it is 0 for evenly spaced arrivals |
| Collector.RttMean | scripts/router/coleta_metrics.py:182 | `np.mean(rtt_samples)`, or 0 with no sample |
| Collector.RttStd | scripts/router/coleta_metrics.py:183 | `np.std(rtt_samples)` as the root of the population variance, or 0 with no sample |
| Collector.RttMeanRange | scripts/router/coleta_metrics.py:182 | the RTT mean is 0 with no sample, and otherwise lies between the least and the greatest |
| Collector.Reals | scripts/router/coleta_metrics.py:177 | the sizes as numbers, element by element |
| Collector.Label | scripts/router/coleta_metrics.py:209-211 | the label is 1 exactly when attacker bytes > 0.1 × total bytes, otherwise 0 |
| Collector.LabelThreshold | scripts/router/coleta_metrics.py:209-211 | strict threshold: 101 of 1000 is an attack, 100 of 1000 is not |
| Collector.Burstiness | scripts/router/coleta_metrics.py:226 | the throughput over the mean of the throughput history when that history is non-empty with a positive mean, else 0 |
| Collector.BurstinessRatio | scripts/router/coleta_metrics.py:226 | with a positive history mean, burstiness times that mean is the throughput, and it is non-negative for a non-negative throughput; otherwise it is 0 |
| Collector.FirstWindowBurstiness | scripts/router/coleta_metrics.py:186-226 | the history already holds the current throughput, so a busy first window has burstiness 1 |
| Collector.Pushed | scripts/router/coleta_metrics.py:186-187 | a non-empty snapshot appends exactly one value to each history (bounded by 10): its RTT mean and its throughput |
| Collector.Derive | scripts/router/coleta_metrics.py:170-235 | the features of a non-empty snapshot from the pushed histories: label, rates, retransmission rate, jitter, inter-arrival mean, size mean and std, burstiness, RTT mean, std and gradient, CE and ECT(1) counts, rolling mean and slope |
| Collector.MakeRow | scripts/router/coleta_metrics.py:214-238 | the row has one entry per header column |
| Collector.Process | scripts/router/coleta_metrics.py:167-243 | an empty snapshot gives no row and leaves the histories unchanged; otherwise both histories are pushed and one row is made |
| Collector.Keys | scripts/router/coleta_metrics.py:214-238 | the keys of a row, in order |
| Collector.RowKeys | scripts/router/coleta_metrics.py:143-238 | the row's keys are exactly the header columns, in order |
| Collector.RowConstants | scripts/router/coleta_metrics.py:214-238 | `packet_loss_rate`, `cwnd_growth_rate` and both queue delays are always 0 |
| Collector.RollingMeanAfterPush | scripts/router/coleta_metrics.py:186-195 | the rolling mean is over the history including the current RTT mean |
| Collector.ProcessBounded | scripts/router/coleta_metrics.py:186-187 | the histories stay within ten entries and of equal length |
| Collector.Inputs | scripts/router/coleta_metrics.py:100-104 | one parsed input per event |
| Collector.Rotate | scripts/router/coleta_metrics.py:163-168 | the next window starts empty; an empty snapshot leaves histories and rows unchanged; a non-empty one appends exactly one row and keeps the earlier ones |
| Collector.RotateEmpty | scripts/router/coleta_metrics.py:163-168 | the state after an empty snapshot: empty window, same histories and rows |
| Collector.RotateNonEmpty | scripts/router/coleta_metrics.py:163-243 | the state after a non-empty snapshot: empty window, pushed histories, and the snapshot's row appended |
| Collector.ApplyConsistent | scripts/router/coleta_metrics.py:102-136 | one line keeps the window consistent |
| Collector.RotateInvariant | scripts/router/coleta_metrics.py:159-243 | rotation keeps the invariant: consistent window, bounded histories, every row keyed by the columns |
| Collector.Step | scripts/router/coleta_metrics.py:100-243 | a parsed line goes into the current window, and a window end rotates |
| Collector.StepInvariant | scripts/router/coleta_metrics.py:100-243 | every event keeps the invariant |
| Collector.Run | scripts/router/coleta_metrics.py:100-243 | the state after any sequence of inputs satisfies the invariant |
| Collector.Ticks | scripts/router/coleta_metrics.py:159-160 | the window ends are at most the inputs |
| Collector.RowsPerTick | scripts/router/coleta_metrics.py:159-168 | at most one row per window end, and rows are never removed |
| Collector.Collector.constructor | scripts/router/coleta_metrics.py:39-43 | the collector starts with an empty window, empty histories and no rows |
| Collector.Collector.Capture | scripts/router/coleta_metrics.py:100-136 | a line changes only the current window, as `Apply` says |
| Collector.Collector.Tick | scripts/router/coleta_metrics.py:159-243 | one turn of the processing loop is `Rotate`: a fresh window object, and the snapshot's row if it has packets |
| Collector.Collector.Handle | scripts/router/coleta_metrics.py:100-243 | one event is one `Step` |
| Collector.Collector.RunEvents | scripts/router/coleta_metrics.py:100-243 | a sequence of events is `Run` over their parsed inputs |
| Detector.ParseMark | scripts/router/ids_l4s.py:81-83 | the ECN parse fails only for a malformed `0x` field; a field neither `0x` nor a digit string is 0 |
| Detector.ParsePacketLine | scripts/router/ids_l4s.py:63-89 | `line.strip().split(',')` followed by `ParsePacketFields`; `PacketLineRoundTrip` reads a written line back |
| Detector.ParsePacketFields | scripts/router/ids_l4s.py:67-89 | fewer than five fields is ignored; otherwise the line is accepted exactly when the timestamp, the length and a `0x` ECN field convert |
| Detector.Assemble | scripts/router/ids_l4s.py:73-89 | a record exists exactly when every conversion succeeded |
| Detector.AcceptedPacketFields | scripts/router/ids_l4s.py:73-89 | an accepted record holds each converted number, CWR as "field is exactly 1", and the lenient window |
| Detector.MarkHex | scripts/router/ids_l4s.py:81 | a `0x` ECN field reads as hexadecimal |
| Detector.MarkDecimal | scripts/router/ids_l4s.py:82 | a decimal ECN field reads as decimal |
| Detector.MarkBareHexPrefix | scripts/router/ids_l4s.py:81-104 | a bare `0x` raises, and the line is dropped |
| Detector.MarkLenient | scripts/router/ids_l4s.py:83 | an empty or signed ECN field is Not-ECT, and the line is kept |
| Detector.ParseWindow | scripts/router/ids_l4s.py:89 | `int(win_val) if win_val.isdigit() else 0` |
| Detector.WindowField | scripts/router/ids_l4s.py:89 | a written window size reads back; an empty or signed one is 0 |
| Detector.PacketFields | scripts/router/ids_l4s.py:109-117 | the capture tool writes five fields per packet |
| Detector.PacketLineRoundTrip | scripts/router/ids_l4s.py:67-89 | a line as the capture tool writes it is read back as its values; CWR is set only by "1", and a missing window reads as 0 |
| Detector.PacketFieldsRoundTrip | scripts/router/ids_l4s.py:73-89 | the written fields convert to the values they were written from |
| Detector.PacketFieldsAccepted | scripts/router/ids_l4s.py:73-89 | fields whose conversions succeed are accepted with exactly those values |
| Detector.Record | scripts/router/ids_l4s.py:92-100 | one accepted packet appends its timestamp, length and window, adds 1 to the count, and increments CE only for 3, ECT(1) only for 1, and CWR only when set |
| Detector.Apply | scripts/router/ids_l4s.py:63-104 | a dropped line leaves the stats exactly as they were; an accepted one is recorded; consistency is kept |
| Detector.IngestAll | scripts/router/ids_l4s.py:126-127 | the stats stay consistent (list lengths equal the count; CE + ECT(1) ≤ count; CWR ≤ count) after any lines |
| Detector.IngestAllAppend | scripts/router/ids_l4s.py:126-127 | one more line is one more update |
| Detector.Timestamps | scripts/router/ids_l4s.py:92 | the timestamps of the records, in order |
| Detector.Lengths | scripts/router/ids_l4s.py:93 | the lengths of the records, in order |
| Detector.Windows | scripts/router/ids_l4s.py:95 | the windows of the records, in order |
| Detector.CountWhere | scripts/router/ids_l4s.py:97-100 | the matching records are at most the records |
| Detector.RecordSummary | scripts/router/ids_l4s.py:92-100 | the in-order update of a summary by one more record is the summary of the longer list |
| Detector.Summary | scripts/router/ids_l4s.py:92-100 | the stats of a list of accepted packets, field by field: timestamps, lengths and windows in order, the CE, ECT(1) and CWR counts, and the packet count |
| Detector.IngestAllSummary | scripts/router/ids_l4s.py:92-127 | the stats after any parse results are the summary of the accepted records |
| Detector.SummaryConsistent | scripts/router/ids_l4s.py:92-100 | the summary of any accepted records is consistent |
| Detector.EmptyStatsEmpty | scripts/router/ids_l4s.py:51-61 | the stats `reset_stats` installs are the summary of no packets, and they are consistent |
| Detector.CountMarksBound | scripts/router/ids_l4s.py:97-98 | CE + ECT(1) packets are at most the packets |
| Detector.Features | scripts/router/ids_l4s.py:138-170 | the eight features of a window with packets: 8 × the length sum, the three ratios over the count, the raw CWR count, the window mean, `iat_mean` and the length mean |
| Detector.FeatureRatios | scripts/router/ids_l4s.py:156-165 | each mark ratio is in [0, 1]; ECT(1) + CE ratios ≤ 1; `flag_cwr` is the raw CWR count |
| Detector.RatioBounds | scripts/router/ids_l4s.py:156-158 | a/n and b/n are fractions whose sum is at most 1 when a + b ≤ n |
| Detector.IatMean | scripts/router/ids_l4s.py:142-147 | the mean gap of the sorted timestamps for two packets or more, else 0 |
| Detector.IatMeanSpread | scripts/router/ids_l4s.py:142-147 | `iat_mean` is (max - min)/(count - 1) ≥ 0 for two packets or more, and 0 for one |
| Detector.FeatureVolumes | scripts/router/ids_l4s.py:138-153 | throughput = 8 × the sum of lengths; `pkt_len_mean` = sum / count; `tcp_win_mean` = sum of windows / count, counting the zeros put in for missing windows, so never negative |
| Detector.FeatureRatiosExample | scripts/router/ids_l4s.py:156-157 | two ECT(1), one CE and one Not-ECT packet give `ratio_ect1` 0.5 and `ratio_ce` 0.25 |
| Detector.FeatureFrame | scripts/router/ids_l4s.py:161-170 | the classifier's row has exactly eight columns |
| Detector.FrameColumns | scripts/ml/train_model.py:43-52 | the row's columns are the training features, in training order |
| Detector.Decide | scripts/router/ids_l4s.py:133-182 | no decision without packets; an alert exactly when the prediction is 1, a prediction failure exactly when it raised, and otherwise the normal report; the alert carries `ratio_ce` and the CWR count, the normal report the throughput in Mbit/s |
| Detector.Start | scripts/router/ids_l4s.py:123-124 | the monitor before the first line: empty stats, last_check at the first clock reading, no outcomes |
| Detector.Observe | scripts/router/ids_l4s.py:126-186 | the line is applied first; at now - last_check ≥ 1 the decision is made on those stats, the stats are reset and last_check becomes now, whatever the decision; below it the stats accumulate and last_check stays |
| Detector.Run | scripts/router/ids_l4s.py:126-186 | consistency is kept; at most one outcome per line; earlier outcomes are never changed |
| Detector.RunAppend | scripts/router/ids_l4s.py:126-186 | one more line is one more iteration |
| Detector.Samples | scripts/router/ids_l4s.py:126-129 | one sample per reading |
| Detector.Packets | scripts/router/ids_l4s.py:126-127 | the parse results of the samples, in order |
| Detector.QuietRun | scripts/router/ids_l4s.py:129-130 | within a window the stats only accumulate, and last_check and the outcomes do not change |
| Detector.FirstDecision | scripts/router/ids_l4s.py:123-186 | the first boundary makes exactly one decision, on the summary of every accepted packet so far including the last, and starts the next window at that reading's clock |
| Detector.CurrentStats.constructor | scripts/router/ids_l4s.py:41-49 | the module-level stats start empty |
| Detector.CurrentStats.Reset | scripts/router/ids_l4s.py:51-61 | `reset_stats` empties every list and zeroes every counter |
| Detector.CurrentStats.ProcessPacketLine | scripts/router/ids_l4s.py:63-104 | one line updates the stats exactly as `Apply` says: ignore, drop or full update |
| Detector.CurrentStats.Add | scripts/router/ids_l4s.py:92-100 | the in-place updates leave the object holding `Record` of the old stats |
| Detector.StartIds | scripts/router/ids_l4s.py:123-186 | the loop's final stats, last_check and outcomes are `Run` from the start over all readings |
| Detector.Poll | scripts/router/ids_l4s.py:127-186 | one iteration is `Observe` |

## Left out

- Concurrency. The collector's capture thread and processing loop share `current_window` without a lock. The model runs both as one sequence of events, so a rotation is an indivisible snapshot-and-replace. Races between an update and the rebinding are not modelled.
- The `tshark` and `tc` subprocesses. Their output is an input sequence of lines. `get_queue_stats` runs `tc -s qdisc show` and discards what it reads; both the normal path and the exception path return zeros, so the result is the constant `QueueReading`.
- `time.sleep`, `time.time()`, `datetime.now().strftime` and `time.strftime`. These are parameters: clock readings, and the text of the row's `timestamp`.
- The `is_running` flag and the `KeyboardInterrupt` shutdown. The model's loops run over a finite input; stopping early is a shorter input.
- The CSV header and row writing, `print` with its ANSI colours, and the messages' number formatting. The model returns the `Row` and the `Outcome` values instead.
- Model loading with `joblib`, its fallback path and `sys.exit`. The classifier is a parameter: a total function that may fail (`None`).
- The `tcp_flags` list of `MetricsWindow`. It is reset but never written or read.
- IEEE floating point. Every number is an exact Dafny `real`, so rounding in `bytes_total * 0.1`, in the means and in the slope is not modelled.
- Square roots. `jitter_ms`, `packet_size_std` and `rtt_std` are kept as `Root(variance)`; the model proves the radicand non-negative and does not compute the root.
- Python's full `int()`/`float()` grammar. Underscores, exponents, `inf`/`nan` and non-ASCII digits or white space are left out. `int()` is an optional sign and ASCII digits, and `float()` is unsigned or signed decimal digits with an optional fraction. `int(s, 16)` is used only on fields that start with `0x`.
- Python's `sorted` is an insertion sort on values (`Stats.Sort`). Only its result, a sorted permutation, is stated; CPython's algorithm is not modelled.
- Integer width. Python integers are unbounded, so there is no overflow to model.
- scripts/ml/train_model.py is not part of this model, apart from its eight feature names (`Detector.TrainingFeatures`). Its loading, training, evaluation and dumping are I/O around an external library.
- scripts/malicious-client/ataque_tcp.py and ataque_udp.py are not part of this model. They are traffic generators with no state to speak of.
- Capture.MetricsWindow.Add: the source makes one statement per field. The method groups the unconditional updates into two parallel assignments, in the source's order. This does not change the resulting state.
- Detector.CurrentStats.Reset: `reset_stats` binds the global to a new dictionary; the method empties the one object in place. Nothing else holds the old dictionary, so the two cannot be told apart.
