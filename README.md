# OKX streaming latency and signal core, in Dafny

This project models the core of a small market-data agent for the OKX
public websocket feed. The agent has three parts:

- **`quant/rust/src/lib.rs`**: a generic fixed-capacity ring buffer in Rust
  (`RingBuffer<T>`). It keeps the last `capacity` pushed values and exports
  them oldest first.
- **`quant/streaming.py`**: the streaming agent. Each instrument gets a
  `FeaturePipeline`, which:
  - buffers signed trade volumes (`TradeBuffer`, backed by two Rust rings);
  - computes the absolute traded volume in three trailing windows
    (10, 50 and 100 ms);
  - builds five features from each top-of-book update;
  - trains an online logistic regression once the mid price has moved;
  - emits a `SignalSnapshot`, which a `SignalFilter` lets through or not.

  `OkxListener._process_entry` routes each entry:
  - it parses the exchange timestamp or skips the entry;
  - it creates the per-`channel:instId` latency ring (capacity 2048) and the
    per-instrument pipeline lazily;
  - it splits the latency into network, parse, factor and dispatch parts,
    each clamped at zero;
  - it records the total in the ring and reports the 50th and 95th
    percentiles.
- **`main.py`** and **`okx_latency_bench.py`**: two simpler listeners.
  - `main.py` uses a numpy ring of latencies (`LatencyRing`).
  - The benchmark uses `StreamStats`, three parallel numpy arrays written at
    a shared cursor, with a time-ordered `_view` and a percentile `summary`.
    It also has `build_subs`, `mono_us_to_epoch_us` and the per-entry
    filtering of `on_ws_frame`.

All three ring implementations obey one law: after any run of pushes, the
live values are the last `min(pushes, capacity)` values pushed, oldest
first. Module `RingLaws` states this law (`Layout`, `LastN`, `Rotate`).
Each ring class keeps a ghost `History` of everything pushed and proves
that its arrays are laid out by that law.

Modules and files:

- `wrappers.dfy`: `Option`.
- `numbers.dfy`: the absolute value.
- `ring_laws.dfy`: the ring law.
- `rust_ring.dfy`: the Rust ring.
- `values.dfy`: decoded JSON entries, plus Python's `int()` and `float()`
  on decimal strings.
- `percentile.dfy`: `np.percentile` with linear interpolation.
- `latency.dfy`: clamping, `LatencyBreakdown`, and the streaming
  `LatencyRing`.
- `trade_windows.dfy`: `TradeBuffer`.
- `logistic.dfy`: the sigmoid and the online model.
- `signals.dfy`: snapshot fields and the filter.
- `pipeline.dfy`: `FeaturePipeline`.
- `streaming_listener.dfy`: `_process_entry` of the streaming agent.
- `main_listener.dfy`: `main.py`.
- `latency_bench.dfy`: the benchmark.

Clocks become parameters. Every `_now_us()` or `now_us_monotonic()` reading
is an argument: `Clocks` for the streaming listener, and `nowUs`,
`recvMonoUs`, `parseStartUs` and `parseEndUs` elsewhere. The benchmark's
global epoch offset is an `Option<int>` argument.

A malformed trade can still raise: `record_trade` buffers the trade and only
then calls `float(px)`, outside its `try` (`quant/streaming.py:225-226`). So a
present but non-numeric price raises *after* the trade was stored. The model
gives this its own outcome, `PriceRaised`: the buffer grows and the listener
reports `Raised`.

## Model

| member | source | states |
|---|---|---|
| RustRing.RingBuffer.New | quant/rust/src/lib.rs:21-31 | Fails exactly when the capacity is zero. Otherwise it returns a fresh, empty, valid ring of that capacity, with cursor 0. |
| RustRing.RingBuffer.Init | quant/rust/src/lib.rs:25-30 | A positive capacity gives a valid ring with `capacity` slots, no history, length 0 and cursor 0. |
| RustRing.RingBuffer.Push | quant/rust/src/lib.rs:33-42 | The value joins the history. Only the slot at the old cursor is written. The cursor advances modulo the capacity. The length grows until it saturates at the capacity. The ring stays valid, so it still holds the last `capacity` values pushed. |
| RustRing.RingBuffer.ExtendFromSlice | quant/rust/src/lib.rs:44-48 | Equals pushing each value in order: the history gains all of them. The length becomes min(old length + count, capacity). |
| RustRing.RingBuffer.Clear | quant/rust/src/lib.rs:50-53 | Afterwards the contents are empty, the ring is not full, and cursor and length are 0. |
| RustRing.RingBuffer.Len | quant/rust/src/lib.rs:55-57 | The length is the number of values held: min(pushes since the last clear, capacity). |
| RustRing.RingBuffer.IsFull | quant/rust/src/lib.rs:59-61 | Full exactly when at least `capacity` values were pushed since the last clear. |
| RustRing.RingBuffer.SnapshotVec | quant/rust/src/lib.rs:63-78 | Returns the last min(pushes, capacity) pushed values, oldest first. |
| RingLaws.LayoutPush | quant/rust/src/lib.rs:33-42 | Writing at the cursor, advancing it with wrap-around and saturating the count keeps the ring law, for any history. |
| RingLaws.LayoutLinearize | quant/rust/src/lib.rs:63-78 | Reading the live slots (from 0 while filling, from the cursor once full) yields the last `capacity` values of the history. |
| RingLaws.LinearizeAt | quant/rust/src/lib.rs:68-76 | Element `i` of the linear view is slot `(start + i) mod capacity`, where `start` is the cursor if the ring is full and 0 otherwise. |
| RingLaws.LastNPush | quant/rust/src/lib.rs:39-41 | One push either extends the window by the new value or drops the window's oldest value. |
| Values.ParseIntShowRoundTrip | quant/streaming.py:383-386 | `int()` on the decimal text of any integer, negative or not, gives that integer back. |
| Values.ParseFloatExtendsParseInt | quant/streaming.py:215-217 | Any text that `int()` accepts, `float()` also accepts, with the same value. |
| Values.ParseInt | quant/streaming.py:383-386 | Only strings can parse. The empty string and a lone sign fail. A string of digits gives its decimal value. Whatever parses has only digits after an optional leading sign. |
| Values.ParseFloat | quant/streaming.py:215-217 | Only strings can parse. The empty string, a lone `.` and a lone sign fail. Whatever parses has only digits and the decimal point after an optional leading sign. |
| Percentile.Sort | okx_latency_bench.py:102 | The result is sorted and is a permutation of the input. |
| Percentile.PercentileWithinSamples | main.py:54 | Every percentile lies between the smallest and the largest sample. Percentile 0 is at most every sample, and percentile 100 is at least every sample. |
| Percentile.PercentileOf | main.py:54 | `np.percentile` of non-empty data at 0 ≤ p ≤ 100 lies between the smallest and largest sample. It is the smallest at p = 0 and the largest at p = 100. |
| Percentile.PercentilesOfOneToEight | tests/test_rust_bridge.py:9-15 | For the samples 1..8, the 50th and 95th percentiles are 4.5 and 7.65, as numpy's linear method gives. |
| Latency.Clamp | quant/streaming.py:388-389 | `max(0, to - from)`: never negative, never below `to - from`, and exact when the clocks are in order. |
| Latency.TotalCoversEndToEnd | quant/streaming.py:156-158 | The total of the four clamped parts is never negative. It never under-reports the exchange-to-dispatch time minus the untimed gap. With ordered clocks it equals that time exactly. |
| Latency.LatencyBreakdown.TotalUs | quant/streaming.py:156-158 | With non-negative parts, the total is at least each part. |
| Latency.Breakdown | quant/streaming.py:422-427 | All four parts are non-negative: each is a `max(0, …)` of its two clock readings (lines 388, 389, 406 and 421). |
| Latency.LatencyRing.constructor | quant/streaming.py:46-47 | A valid ring over a fresh, empty Rust ring of the given capacity. |
| Latency.LatencyRing.Add | quant/streaming.py:49-50 | The value joins the Rust ring's history and the ring stays valid. |
| Latency.LatencyRing.Percentiles | quant/streaming.py:52-58 | None exactly when the ring is empty. Otherwise it returns the two percentiles of the last `capacity` values. |
| TradeWindows.TradeBuffer.AddTrade | quant/streaming.py:70-72 | The timestamp and the signed volume each join their own ring, and both rings stay valid and in step. |
| TradeWindows.TradeBuffer.WindowVolumes | quant/streaming.py:74-98 | `out` holds the window totals of the buffered trades. For non-decreasing timestamps, each is the sum of absolute volumes with timestamp in `[ts - window, ts]`. |
| TradeWindows.TradeBuffer.FillWindowVolumes | quant/streaming.py:77-98 | The search-and-subtract loop writes, for every window, the total given by `WindowVolumesOf` on the two snapshots. |
| TradeWindows.WindowVolumesAreWindowSums | quant/streaming.py:91-98 | For non-decreasing timestamps, every window's total is the sum of absolute volumes with timestamp in `[ts - window, ts]`. |
| TradeWindows.TradeBuffer.constructor | quant/streaming.py:66-68 | Two fresh, empty rings of the same capacity, valid and in step. |
| TradeWindows.WindowTotalIsWindowSum | quant/streaming.py:81-97 | For sorted timestamps, the prefix-sum computation between the two binary searches equals the direct sum over the window. |
| TradeWindows.InWindowIsPrefixDifference | quant/streaming.py:89-97 | When the window is exactly the indices `left..end`, its sum is `prefix[end] - prefix[left]`. |
| TradeWindows.WindowVolumesZeroWithoutEarlierTrade | quant/streaming.py:77-84 | With no trade at or before `ts`, every window total is 0. |
| TradeWindows.WindowVolumesExample | tests/test_rust_bridge.py:19-28 | Trades of volumes 3, -2 and 1 at 80, 30 and 5 ms before `ts` give window totals 1, 3 and 6. |
| TradeWindows.UpperBound | quant/streaming.py:81 | `searchsorted(side="right")`: every element before the index is ≤ x, and the element at the index is > x. |
| TradeWindows.LowerBound | quant/streaming.py:93 | `searchsorted(side="left")`: every element before the index is < x, and the element at the index is ≥ x. |
| Logistic.StableSigmoid | quant/streaming.py:33-38 | The result lies strictly in (0, 1), and it is at least 1/2 exactly when z ≥ 0. |
| Logistic.StableSigmoidMonotone | quant/streaming.py:33-38 | The sigmoid is monotone in z across both branches. |
| Logistic.RateAfterClosedForm | quant/streaming.py:124-130 | After k updates the learning rate is max(min_lr, lr0 · decay^k). |
| Logistic.RateNonIncreasing | quant/streaming.py:130 | The learning rate never rises and never drops below `min_lr`. |
| Logistic.StepRate | quant/streaming.py:124 | The step uses max(rate, min_lr). |
| Logistic.DotAfterStep | quant/streaming.py:128 | After `w -= c·x`, the score drops by `c·‖x‖²`. |
| Logistic.StepMovesTowardLabel | quant/streaming.py:123-129 | One gradient step on (w, b) raises the prediction on the same features for label 1, and lowers it for label 0. |
| Logistic.UpdateMovesTowardLabel | quant/streaming.py:123-131 | `update` moves the model's probability on the trained features toward the label. |
| Logistic.LogisticRegressionModel.constructor | quant/streaming.py:106-117 | Zero weights of the given width, zero bias, and the given rate, decay and floor. |
| Logistic.LogisticRegressionModel.Predict | quant/streaming.py:119-121 | The sigmoid of the score, strictly in (0, 1). |
| Logistic.LogisticRegressionModel.Update | quant/streaming.py:123-131 | Returns the probability before the step. The new state is the stepped state, whose properties the lemmas above give. |
| Logistic.PredictOn | quant/streaming.py:119-121 | In (0, 1), and at least 1/2 exactly when the score is ≥ 0. |
| Signals.Spread | quant/streaming.py:251 | Never negative: it is 0 or ask − bid, whichever is larger. |
| Signals.Imbalance | quant/streaming.py:252-253 | When the total size is positive, imbalance × total = bid size − ask size. Otherwise it is 0. |
| Signals.ImbalanceBounds | quant/streaming.py:252-253 | For non-negative sizes it lies in [−1, 1]. It is positive exactly when bid size > ask size, and negative exactly when bid size < ask size. |
| Signals.Mid | quant/streaming.py:254 | Equidistant from bid and ask, and between them when the book is not crossed. |
| Signals.Confidence | quant/streaming.py:271 | In [0, 1] and at most 2·\|p − ½\|. |
| Signals.ConfidenceOfProbability | quant/streaming.py:271 | For a probability p, the confidence is exactly 2·\|p − ½\|. |
| Signals.DirectionOf | quant/streaming.py:272 | Long exactly when p ≥ ½. |
| Signals.DefaultFilterIsProbabilityBand | quant/streaming.py:175-184 | With the configured thresholds (0.1, 0.55, 0.45), a snapshot passes exactly when p ≥ 0.55 or p ≤ 0.45. |
| Signals.StricterFilterAllowsLess | quant/streaming.py:175-184 | Tightening the filter can only reject more snapshots: raising min_confidence or min_probability_long, or lowering max_probability_short. |
| Signals.Allow | quant/streaming.py:175-184 | Every snapshot the filter allows meets the confidence floor, whatever its direction. |
| Pipeline.Lower | quant/streaming.py:221 | Same length, with each character ASCII-lowered. |
| Pipeline.SignedVolume | quant/streaming.py:222 | Keeps the magnitude. For a positive size it is negative exactly when the side is "sell". |
| Pipeline.ParseTrade | quant/streaming.py:210-219 | Succeeds exactly when both `ts` and `sz` parse. The result is (ts·1000, sz). |
| Pipeline.Summarize | quant/streaming.py:225-233 | Raises exactly when `px` is present but not numeric. Otherwise the summary carries the timestamp, the side ("?" when empty), the price or none, the signed volume and its absolute value. |
| Pipeline.ParseBookTop | quant/streaming.py:236-249 | None when `ts` is missing or either book side is empty. Otherwise it succeeds exactly when the timestamp and the four top-level fields parse, and returns them. |
| Pipeline.BookFeatures | quant/streaming.py:257-261 | Five features: imbalance, a non-negative spread, then the three window volumes. |
| Pipeline.Train | quant/streaming.py:263-268 | The weight width is kept. Nothing pending, or an unmoved mid, leaves the state as it was. Otherwise one update is made and the rate decays to max(min_lr, rate · decay). |
| Pipeline.InitialView | quant/streaming.py:200-207 | A new pipeline holds no trades and nothing pending or latest, and has the consistent shape. |
| Pipeline.AfterTrade | quant/streaming.py:209-224 | `record_trade` on the pipeline's state: an unparsable entry changes nothing; otherwise the trade histories gain exactly (ts·1000, signed size). Nothing but the trade histories ever changes. |
| Pipeline.AfterBook | quant/streaming.py:250-288 | `process_book` after parsing keeps the trades and the consistent shape. The new features and mid become pending, and a snapshot at the new mid becomes the latest. |
| Pipeline.AfterBookEntry | quant/streaming.py:235-288 | An update that does not parse leaves the pipeline's state unchanged. A parsed one gives `AfterBook` of it. |
| Pipeline.TrainFollowsMid | quant/streaming.py:263-268 | No pending features, or an unchanged mid, leaves the model as it was. A higher mid moves the prediction on the pending features up; a lower mid moves it down. |
| Pipeline.FeaturePipeline.constructor | quant/streaming.py:200-207 | An empty trade buffer of capacity 4096, zero volumes and features, a fresh five-feature model, and nothing pending. The object's state is `InitialView`. |
| Pipeline.FeaturePipeline.RecordTrade | quant/streaming.py:209-233 | An entry whose ts or sz does not parse is skipped with the buffer unchanged. Otherwise (ts·1000, signed size) is buffered and the summary (or the raise) is returned. The object's new state is `AfterTrade` of its old one. |
| Pipeline.FeaturePipeline.ProcessBook | quant/streaming.py:235-288 | The object's new state is `AfterBookEntry` of its old one. So an unparsable update changes nothing, volumes and features included. Otherwise the window volumes are refreshed as of the update, the features written, the model trained on the pending pair when the mid moved, a prediction made on the new features, and they become pending. A snapshot is returned exactly when the update parses, and it is the new latest one. |
| Pipeline.FeaturePipeline.ProcessTop | quant/streaming.py:250-288 | The object's new state is `AfterBook` of its old one, and the returned snapshot is the latest. |
| Pipeline.FeaturePipeline.RefreshFeatures | quant/streaming.py:256-261 | The volumes are the window totals as of the update time, and the features are built from them. |
| Pipeline.FeaturePipeline.TrainOnPending | quant/streaming.py:263-268 | The model becomes the trained state for the pending pair and the new mid. |
| StreamingListener.Key | quant/streaming.py:391 | The key is the channel, a colon, then the instrument, so both parts can be read back. |
| StreamingListener.EntryBreakdown | quant/streaming.py:388-389 | The latency total is never negative. |
| StreamingListener.ShownSignal | quant/streaming.py:412-418 | A trade line shows the latest snapshot exactly when one exists and the filter allows it. |
| StreamingListener.GetOrInsert | quant/streaming.py:392-399 | The key is present afterwards. Existing entries are kept and no other key is added. A missing key gets the new value. |
| StreamingListener.EntryTarget | quant/streaming.py:379-391 | None exactly when `ts` does not parse. Otherwise it gives the ring key `channel:instId`, the entry's own instId (falling back to the frame's), and the timestamp in µs. |
| StreamingListener.AddAndMeasure | quant/streaming.py:428-429 | The total joins the ring, and the reported pair is the 50th and 95th percentiles of the ring's window. |
| StreamingListener.RouteTrade | quant/streaming.py:403-437 | The pipeline's new state is `AfterTrade` of its old one. The report is what `TradeReported` says: silent for an unparsable trade, the raise for a non-numeric price, and otherwise a trade line with the summary and the latest snapshot when the filter allows it. Exactly the timed reports add one latency total to the ring and carry its percentiles. |
| StreamingListener.RouteBook | quant/streaming.py:438-467 | The pipeline's new state is `AfterBookEntry` of its old one, so an unparsable update changes nothing. The report is what `BookReported` says: a signal line with the new snapshot exactly when the update parses and the filter allows it, and silence otherwise. Only a signal line adds one latency total to the ring. |
| StreamingListener.SignalReport | quant/streaming.py:442-459 | A line and one latency total exactly when a snapshot exists and passes the filter. |
| StreamingListener.Routed | quant/streaming.py:403-467 | Only a trades entry can change the trade histories. A trades entry leaves the model and the latest snapshot alone. A channel that is neither trades nor books changes nothing. |
| StreamingListener.RouteEntry | quant/streaming.py:403-467 | The pipeline's new state is `Routed` of its old one: a trade goes through `record_trade`, a books update through `process_book`. The report is `ReportedFor` the channel. The ring gains the report's total exactly when the report is timed. Any other channel changes nothing. |
| StreamingListener.ProcessEntry | quant/streaming.py:371-467 | An entry without an integer ts changes nothing. Otherwise the ring map and the pipeline map gain at most their one key, and a new ring has capacity 2048. The ring's history gains the clamped total exactly when a line is produced. The instrument's pipeline (the existing one, or a new one in `InitialView`) ends in `Routed` of its state, and the report is `ReportedFor` the channel. |
| MainListener.NumpyRing.constructor | main.py:31-35 | A zero-filled buffer of the given capacity, with count and cursor 0. |
| MainListener.NumpyRing.Add | main.py:37-41 | The value is written at the old cursor only. The cursor advances modulo the capacity, the count saturates at the capacity, and the history gains the value. |
| MainListener.NumpyRing.Percentiles | main.py:43-55 | None exactly when nothing was added. Otherwise the two percentiles of the last `capacity` values, oldest first. |
| MainListener.PrintedFor | main.py:147-163 | A trade line exactly for "trades". For any other channel starting with "books": a book line exactly when each side is empty or its first level has two elements, and a raise (IndexError or TypeError) from `best_bid[0]`, `best_bid[1]` or their `best_ask` counterparts otherwise. Nothing for other channels. |
| MainListener.ShortLevelRaises | main.py:155-162 | A books update raises when its best bid is a one-element list, or when its bids are a string (its first level is then one character). A two-element best bid with no asks prints a book line. |
| MainListener.ProcessEntry | main.py:122-163 | Dropped exactly when ts does not parse. Otherwise it records `max(0, now − ts·1000)` in the lazily created `channel:instId` ring (capacity 2048) and reports its p50 and p95. The latency is recorded before the book line can raise. |
| LatencyBench.StreamStats.constructor | okx_latency_bench.py:52-61 | Three zeroed arrays of 8192 slots, with cursor, full flag and message count reset, for any 0 < cap ≤ 8192. |
| LatencyBench.StreamStats.Add | okx_latency_bench.py:63-70 | The three arrays are written at the old cursor only, all three at the same index. The cursor advances modulo cap, `full` never reverts, and `msgs` grows by one. |
| LatencyBench.StreamStats.FullIffWrapped | okx_latency_bench.py:68-69 | `full` holds exactly when msgs ≥ cap, and the live count is min(msgs, cap). |
| LatencyBench.StreamStats.ArraysAreColumns | okx_latency_bench.py:63-67 | The first cap slots of each array are one column of the same slot records. |
| LatencyBench.StreamStats.View | okx_latency_bench.py:72-84 | The three columns have equal length min(msgs, cap). They are the last cap samples, oldest first: a prefix while filling, a rotation at the cursor once full. |
| LatencyBench.StreamStats.ViewAsWritten | okx_latency_bench.py:72-84 | Equals View while filling. Once full, its columns have 8192 entries whatever cap is. |
| LatencyBench.StreamStats.ViewAsWrittenAtDefaultCap | okx_latency_bench.py:251-254 | With the cap the benchmark uses (8192), the view as written equals the intended view. |
| LatencyBench.StreamStats.Summary | okx_latency_bench.py:86-110 | No samples (the all-NaN summary) exactly when nothing was added. Otherwise: count min(msgs, cap), the 50/95/99th latency and parse percentiles, and the frame mean and 95th percentile of the corrected View. At the cap the benchmark uses (8192) this equals `_view` as written. |
| LatencyBench.MeanBounds | okx_latency_bench.py:108 | The mean of samples lies within their bounds. |
| LatencyBench.BuildSubs | okx_latency_bench.py:189-194 | Two subscriptions per symbol, in order: trades at 2k, then books5 at 2k+1. |
| LatencyBench.SubscriptionsArePrepared | okx_latency_bench.py:250-256 | Every subscription's `channel:instId` key is among the keys for which stats are prepared. |
| LatencyBench.MonoUsToEpochUs | okx_latency_bench.py:42-46 | Fails exactly when the offset is unset. Otherwise the result minus the monotonic reading is the offset. |
| LatencyBench.EntrySample | okx_latency_bench.py:158-167 | One sample exactly when ts parses. It carries `max(0, recv − ts·1000)`, the parse time and the frame length. |
| LatencyBench.EntrySamples | okx_latency_bench.py:158-167 | At most one sample per entry, each with latency ≥ 0 and the frame's parse time and length. |
| LatencyBench.AllTimedEntries | okx_latency_bench.py:158-167 | When every entry has an integer ts, there is exactly one sample per entry, in order, with the clamped latency. |
| LatencyBench.OnWsFrame | okx_latency_bench.py:125-167 | An unset clock offset fails. A missing or "unknown" channel, or data that is not a list, records nothing. An unprepared key fails. Each of these leaves the frame's stats unchanged. Otherwise exactly the timed entries' samples are added, in order. |
| LatencyBench.RecordEntries | okx_latency_bench.py:158-167 | The loop adds exactly the entries' samples to the stats. |
| LatencyBench.RecordNext | okx_latency_bench.py:158-167 | One pass extends the samples of the entries before `j` to those up to and including `j`. |
| LatencyBench.RecordEntry | okx_latency_bench.py:158-167 | An entry with an integer ts adds its one sample and counts one message. Any other entry changes nothing. |
| LatencyBench.SmallCapViewExample | okx_latency_bench.py:72-84 | With cap 2 after two adds, the view as written has 8192 entries where two are meant. |

## Left out

- Transport and framing are not modelled: the websocket connection, subscribing, frame types, payload extraction, zlib inflation and JSON decoding. The model starts from decoded entries (`Values.Entry`, `LatencyBench.Message`).
- Clocks (`time.time_ns`, `perf_counter_ns`) are parameters. `init_epoch_offset` is an optional offset parameter.
- All text output is left out: the printed lines, their number formatting, `print_live`, the markdown report and the startup lines. The model returns what would be shown (`Report`, `Outcome`, `StatsSummary`) instead.
- The PyO3 wrappers (`RingBufferI64`, `RingBufferF64`, `to_numpy`) are left out. The Rust ring is modelled generically, and the Python side reads its snapshot.
- Integer widths are not modelled. The model uses unbounded `int`/`real` where the source has `usize`, `int64` and `int32` (the frame-length column) and `float64`. No overflow, wrap-around or rounding is captured.
- Logistic.StableSigmoid: `math.exp` is replaced by the stand-in `1/(1-x)` on x ≤ 0, the only domain the code calls it on. The stand-in keeps the branch structure, the range (0, 1), monotonicity and the sign at ½, but the probabilities differ numerically from the real sigmoid.
- Values.ParseInt and Values.ParseFloat accept only an optional sign, digits, and (for floats) one decimal point. Python's whitespace, underscores, exponents, "nan" and "inf" are not modelled.
- Values.ParseInt: `Value` has only null, strings and lists, so JSON numbers and booleans, which Python's `int()` also accepts, are not representable. The exchange sends `ts`, `sz`, `px` and the book levels as strings, which is the case modelled.
- Values.ParseFloat: as for `ParseInt`, `float()` of a JSON number or boolean is not representable.
- Pipeline.Lower: only ASCII letters are lowered. Python's `str.lower` applies the full Unicode case mapping, which can change other letters and even the length (`"İ".lower()` has two characters). Only the comparison with "sell" and the shown side depend on it.
- TradeWindows.UpperBound and TradeWindows.LowerBound equal numpy's `searchsorted` only on sorted input, which is what `WindowVolumes` needs for its window-sum property.
- A non-string `side` (which makes `.lower()` raise) is excluded by the types.
- JSON objects are not representable: `Value` has only null, strings and lists. In the source a dict as the first book level makes `bids[0][0]` raise `KeyError`, which the `except (TypeError, ValueError, IndexError)` of quant/streaming.py:244-249 does not catch, so it escapes `process_book`.
- A null or non-string `instId` is excluded by the types: the model's `None` means the field is absent, and then the frame's `instId` is used. The source keys an entry with an explicit JSON null as, e.g., `"trades:None"` (quant/streaming.py:390-391, main.py:134-135), with no fallback to the frame's `instId`.
- Rings of capacity 0 are left out. The model's constructors require a positive capacity, because the Python rings would divide by zero. The Rust `new` models the zero case as an error.
- Zero-initialised array contents are modelled where the source relies on them (`np.zeros`, `T::default()`).
- The dictionaries of `OkxListener` and the benchmark's stats dictionary are modelled as map values passed in and returned. Aliasing between entries and the in-place dict mutation are not captured.
- main.py's printed trade and book fields (side, px, sz, best bid and ask, action) are not modelled. Only which kind of line is printed, or that the book line raises, is. That an `IndexError` or `TypeError` there ends the frame loop and the connection is not modelled, because the frame loop is left out.
- main.py's `on_ws_frame` event branch and the streaming agent's `on_ws_frame` loop over `data` are not modelled. The model handles one entry at a time.
- `print_live`, the benchmark's report writer and its command-line driver are not modelled.

## Findings

| source | as written | input that shows it | evidently intended | confidence | as-written member | corrected member |
|---|---|---|---|---|---|---|
| okx_latency_bench.py:72-84 | Once `full`, `_view` concatenates `arr[i:]` and `arr[:i]` over the whole 8192-slot arrays, whatever `cap` is. | `StreamStats(cap=2)` after two adds: the view has 8192 entries, 8190 of them never-written zeros, and `summary` reports count 8192. | The time-ordered last `cap` samples, sliced to `cap` (`arr[i:cap]`, then `arr[:i]`). | not executed | LatencyBench.StreamStats.ViewAsWritten | LatencyBench.StreamStats.View |
