# uptime — a verified model of the probe-and-report pipeline

The repository probes an HTTP(S) url with libcurl and reports the result to a
Graphite collector as plain-text metric lines. It has two implementations of
the same pipeline:

- `uptime.py`, a script that probes one configured url in an endless loop;
- `lib/reporter.py`, a class `CurlTimeReporter` that does the same for any
  url handed to `analyze_url`.

Each probe does four things:

1. **Timing decomposition.** libcurl reports seven cumulative checkpoints
   (name lookup, connect, TLS connect, pre-transfer, start-transfer, redirect,
   total). They are turned into per-phase durations with a running total:
   each phase contributes `max(0, reported − running)`, and the running total
   grows by that amount.
2. **Outcome classification.**
   - `uptime.py` sets two flags: `timedout` and `error`.
   - The reporter sets three one-hot flags: `status.success`,
     `status.timedout` and `status.error`.
3. **Sanitisation.** The url becomes a metric-path component: the
   every occurrence of `https://` and `http://` is removed, wherever it appears, and `/ ? & .` become `_`.
4. **Emission.**
   - Each statistic is rendered as `<prefix>.<sanitised url>.<stat> <value> <timestamp>\n`.
   - `uptime.py` sends a fixed list of 25 such lines; the reporter sends 19.

The Dafny project has these modules:

| module | file | holds |
|---|---|---|
| `Timing` | `timing.dfy` | `calc_diff` and the decomposition, with an independent reference (the running maximum) |
| `Stats` | `stats.dfy` | the statistics dictionary as a `map<Stat, Value>`, and the step-by-step recording of the timings shared by both `get_url_stats` |
| `Sanitize` | `sanitize.dfy` | Python's `str.replace` as one left-to-right, non-overlapping pass, and `build_graphite_friendly_url` |
| `Decimal` | `decimal.dfy` | the `{:d}` rendering of the timestamp and its inverse |
| `Message` | `message.dfy` | `build_message` and the batch of lines a table of (statistic, format) pairs produces |
| `Uptime` | `uptime.dfy` | `uptime.py`: `get_url_stats`, `send_stats` and one pass of the main loop, with the sent lines threaded through as a sequence |
| `Reporter` | `reporter.dfy` | `lib/reporter.py`: a class `CurlTimeReporter` with a read-only `config` and a `sent` field, the log of delivered lines |

Modelling choices:

- **The transfer engine.** What `perform()` did (returned, or raised with a curl error code) and what `getinfo()` reports are inputs.
- **The timestamp** is a parameter.
- **`{:f}` rendering** is an abstract function `fixed`.
- **Timings** are exact reals.
- **The scheme strings.** The code removes every occurrence of the scheme strings `https://` and `http://`, not only a leading one (uptime.py:101, lib/reporter.py:93). It does not replace them by `_`, and the model follows the code.

## Model

| member | source | states |
|---|---|---|
| Timing.CalcDiff | uptime.py:18-21 | the diff is never negative, is at least current − running, and is either 0 or exactly current − running; adding it lifts the running total to max(running, current); lib/reporter.py:17-20 is identical |
| Timing.PrefixMax | uptime.py:58-86 | independent reference for the running total: it is ≥ 0, bounds every value seen, and is 0 or one of those values |
| Timing.RunningIsPrefixMax | uptime.py:58-86 | after each phase, the running total equals the maximum of 0 and the values reported so far |
| Timing.DecomposeFirst | uptime.py:60-86 | the first k diffs in phase order; diff j is phase j's value clamped against the running total the earlier phases left |
| Timing.Decompose | lib/reporter.py:52-78 | one diff per phase, and no diff is negative |
| Timing.DecomposeAt | uptime.py:61-62 | each diff is exactly the amount by which its phase advances the running total |
| Timing.SumOfStepsIsRunning | uptime.py:58-86 | amounts that each advance the running total by their own size add up to the running total |
| Timing.DiffsSumToMax | uptime.py:58-86 | the seven diffs sum to max(0, largest reported value) |
| Timing.MonotonePrefixMax | lib/reporter.py:50-78 | for non-negative, non-decreasing values, the running maximum is the latest value |
| Timing.MonotoneDecompose | lib/reporter.py:50-78 | for non-negative, non-decreasing values: the first diff is the first value, each later diff is the successive difference, and the diffs sum to the last value |
| Timing.ExampleDecomposition | uptime.py:58-86 | (0.10, 0.25, 0.25, 0.26, 0.50, 0.50, 0.50) decomposes to (0.10, 0.15, 0, 0.01, 0.24, 0, 0) |
| Stats.Times | uptime.py:60-84 | the seven cumulative values read, in phase order: entry k is the value getinfo reports for phase k |
| Stats.RecordPhase | uptime.py:60-62 | one three-line group: the reported value is stored unchanged, the new running total is max(old total, reported value), and the stored diff is exactly how much the total grew |
| Stats.RecordedStep | lib/reporter.py:52-54 | one group extends the recorded dictionary by one phase and the running total to its value after that phase |
| Stats.RecordTimings | uptime.py:57-86 | the "calculate diffs" block, processing the phases in the fixed order, yields WithTimings: every phase recorded with its reported value and clamped diff (lib/reporter.py:49-78 is the same block) |
| Stats.RecordedHolds | uptime.py:60-86 | after k groups, each processed phase holds its reported value and diff; a later group never overwrites an earlier phase's entries |
| Stats.RecordedFrame | uptime.py:57-86 | the block touches only the reported and diff keys |
| Stats.WithTimingsRecords | lib/reporter.py:49-78 | each reported entry is the value getinfo reported for that phase, each diff entry is that phase's clamped diff, and every diff is ≥ 0 |
| Stats.WithTimingsFrame | lib/reporter.py:49-78 | the block leaves every other key as it was |
| Stats.WithTimingsRecorded | uptime.py:57-86 | the recorded dictionary holds, for every phase, its reported value and its diff |
| Stats.TrailerFrame | uptime.py:88-91 | the four last assignments store the response code, size, timestamp and url, and leave every other entry alone |
| Stats.TrailerKeepsEntries | lib/reporter.py:80-83 | the four last assignments keep every reported and diff entry |
| Sanitize.Underscored | lib/reporter.py:93 | reference mapping for the last four passes: it keeps the length, leaves none of `/ ? & .` in the result, and every output character is an input character or `_`; Sanitize.GraphiteFriendlyUrlMapsChars proves the chain equal to it |
| Sanitize.Replace | uptime.py:101 | one `str.replace` pass: every occurrence of the pattern, left to right and without overlap, is replaced in one pass; every output character comes from the string or the replacement, and a string shorter than the pattern is returned as it is. Sanitize.ReplaceNoLonger, Sanitize.ReplaceAbsent and Sanitize.ReplaceChar carry its other properties |
| Sanitize.GraphiteFriendlyUrl | uptime.py:100-101 | build_graphite_friendly_url: the six passes in the source's order; every output character is a character of the url or `_`. Sanitize.GraphiteFriendlyUrlClean, Sanitize.GraphiteFriendlyUrlNoLonger, Sanitize.GraphiteFriendlyUrlMapsChars and Sanitize.GraphiteFriendlyUrlIdempotent carry its other properties |
| Sanitize.ReplaceNoLonger | uptime.py:101 | a `str.replace` pass whose replacement is no longer than its pattern never lengthens the string |
| Sanitize.ReplaceAbsent | uptime.py:101 | a pattern containing a character the string lacks never matches, so the pass is the identity |
| Sanitize.ReplaceChar | uptime.py:101 | replacing one character by another is a character-by-character map that keeps the length |
| Sanitize.GraphiteFriendlyUrlClean | uptime.py:100-101 | the sanitised url contains none of `/ ? & .` |
| Sanitize.GraphiteFriendlyUrlNoLonger | uptime.py:100-101 | the sanitised url is no longer than the url |
| Sanitize.GraphiteFriendlyUrlMapsChars | lib/reporter.py:92-93 | after every occurrence of `https://` and `http://` is removed, each remaining character maps to itself, except that `/ ? & .` map to `_` |
| Sanitize.StripSchemesWithoutColon | lib/reporter.py:93 | a url without `:` has no scheme to strip |
| Sanitize.GraphiteFriendlyUrlIdempotent | lib/reporter.py:92-93 | sanitising twice equals sanitising once |
| Decimal.NatDigits | uptime.py:98 | the digits of a natural number: non-empty, all digits, no leading zero |
| Decimal.NatDigitsRoundTrip | uptime.py:98 | reading back the digits gives the number |
| Decimal.DecimalString | uptime.py:98 | the `{:d}` rendering: non-empty; it starts with `-` exactly when the number is negative; every other character is a digit. Decimal.DecimalRoundTrip proves it reads back as the same integer |
| Decimal.DecimalRoundTrip | lib/reporter.py:90 | the `{:d}` rendering of the timestamp starts with `-` exactly for negatives and reads back as the same integer |
| Message.Render | uptime.py:98 | a value renders exactly when it suits its format: `{:f}` takes ints and floats, `{:d}` only ints |
| Message.GraphitePath | uptime.py:104 | the metric path `<prefix>.<sanitised url>`: it starts with the prefix and a dot, and the part after that dot holds none of `/ ? & .`; lib/reporter.py:103 is identical |
| Message.BuildMessage | uptime.py:97-98 | it fails exactly when the statistic or the timestamp is missing or a value does not suit its format (a missing statistic is a KeyError naming it); otherwise the line is exactly `<path>.<stat> <value in its format> <decimal timestamp>\n`; lib/reporter.py:89-90 is identical |
| Message.BatchAtFloat | uptime.py:97-98 | the line for a `{:f}` entry whose statistic holds a float is `<path>.<stat> <that float as {:f}> <decimal timestamp>\n` |
| Message.Batch | uptime.py:103-133 | one line per table entry |
| Message.BatchAt | uptime.py:107-133 | line k of a batch is the message built for the table's k-th entry |
| Message.BatchAppend | uptime.py:107-133 | sending two tables in a row sends the batch of their concatenation |
| Message.SentMore | lib/reporter.py:105-125 | appending a further batch to a log extends the table sent so far |
| Message.SendableOne | uptime.py:98 | an entry whose value is present and suits its format can be encoded |
| Message.SendableAppend | uptime.py:103-133 | two tables that encode make a table that encodes |
| Message.SendableParts | uptime.py:103-133 | the parts of a table that encodes also encode |
| Message.BatchLines | uptime.py:103-104 | every line of a batch starts with `<prefix>.<sanitised url>.<its stat> ` and ends with the one shared timestamp and a newline |
| Message.TimingTableOrder | lib/reporter.py:105-118 | 14 timing lines; for each phase in order, its reported line directly precedes its diff line |
| Message.TimingTableSendable | lib/reporter.py:105-118 | each phase's pair of lines encodes when the timing block does |
| Message.PhaseSendable | uptime.py:115-116 | a phase's pair of lines encodes when both its entries are numbers |
| Message.PhasesSendable | uptime.py:115-128 | the timing block encodes when every phase's pair does |
| Uptime.OutcomeFlags | uptime.py:35-46 | both flags are 0 or 1, never both 1; timedout is 1 exactly on curl error 28 and error is 1 exactly on any other failure |
| Uptime.GetUrlStats | uptime.py:23-95 | the dictionary it fills step by step is ProbeStats: flags, deprecated timings, the recorded timings and the trailer |
| Uptime.SendSingleStatus | uptime.py:135-140 | the message is appended to the lines already sent |
| Uptime.SendOne | uptime.py:107 | one send appends exactly the message build_message returns |
| Uptime.SendLegacyTimes | uptime.py:106-113 | appends the seven deprecated timing lines in order |
| Uptime.SendPhase | uptime.py:115-116 | appends a phase's reported line, then its diff line |
| Uptime.SendTimings | uptime.py:115-128 | appends the 14 timing lines in phase order |
| Uptime.SendStatus | uptime.py:130-133 | appends the timedout, error, response-code and download-size lines |
| Uptime.SendStats | uptime.py:103-133 | appends the batch of all 25 entries under `<prefix>.<sanitised stats["url"]>` |
| Uptime.CompleteLegacy | uptime.py:106-113 | a complete dictionary encodes the deprecated block |
| Uptime.CompleteTimings | uptime.py:115-128 | a complete dictionary encodes the timing block |
| Uptime.CompleteStatus | uptime.py:130-133 | a complete dictionary encodes the status block |
| Uptime.CompleteSendable | uptime.py:103-133 | a complete dictionary encodes all 25 lines: no build_message call raises |
| Uptime.HeadStatsRecorded | uptime.py:35-55 | the flags are the outcome classification, and each deprecated timing is the value getinfo reported |
| Uptime.WithTimingsKeepsHead | uptime.py:57-86 | the diffs block keeps the flags and the deprecated timings |
| Uptime.TrailerKeepsHead | uptime.py:88-91 | the four last assignments keep the flags and the deprecated timings |
| Uptime.TrailerComplete | uptime.py:88-91 | after the four last assignments, the dictionary is complete |
| Uptime.ProbeStatsRecords | uptime.py:23-95 | get_url_stats returns a complete dictionary that holds: the flags; every deprecated and reported timing unchanged; every clamped diff; and the response code, size, timestamp and url |
| Uptime.CheckOnce | uptime.py:160-162 | one pass of the loop appends the batch of the 25 entries of the probed dictionary, under the path of the configured url |
| Uptime.SendTableOrder | uptime.py:107-133 | 25 entries, in this order: seven deprecated timings in phase order; each phase's reported line directly before its diff line; then timedout, error, responsecode, downloadbytes |
| Uptime.ProbeStatsPhase | uptime.py:23-95 | get_url_stats records, for phase k, its reported time as getinfo gave it, its clamped diff, and the timestamp |
| Uptime.SendTablePhase | uptime.py:115-128 | phase k's reported entry is at position 7+2k and its diff entry at 8+2k, both with the `f` format |
| Uptime.SendTableTimingLines | uptime.py:115-128 | under any metric path, the batch's lines 7+2k and 8+2k carry phase k's cumulative time and its clamped duration, then the timestamp |
| Uptime.CheckOnceTimingLines | uptime.py:115-128 | in one pass, line 7+2k is `<path>.time.<phase k>.reported <cumulative time of phase k> <timestamp>\n` and line 8+2k is `<path>.time.<phase k>.diff <phase k's clamped duration> <timestamp>\n` |
| Uptime.CheckOnceLines | uptime.py:103-133 | a pass sends 25 lines; line i names the i-th statistic under `<prefix>.<sanitised url>.`, and all lines end with the probe's decimal timestamp and a newline |
| Reporter.StatusFlags | lib/reporter.py:33-47 | exactly one flag is 1: success exactly when perform returns, timedout exactly on curl error 28, error exactly on any other failure |
| Reporter.CurlTimeReporter.constructor | lib/reporter.py:14-15 | stores the configuration; nothing has been sent yet |
| Reporter.CurlTimeReporter.GetUrlStats | lib/reporter.py:22-87 | the dictionary it fills step by step (success set, then cleared in the exception handler) is ReportStats |
| Reporter.CurlTimeReporter.SendSingleStatus | lib/reporter.py:95-100 | the message is appended to `sent`, and nothing else changes |
| Reporter.CurlTimeReporter.SendOne | lib/reporter.py:105 | one send appends exactly the message build_message returns |
| Reporter.CurlTimeReporter.SendPhase | lib/reporter.py:105-106 | appends a phase's reported line, then its diff line |
| Reporter.CurlTimeReporter.SendTimings | lib/reporter.py:105-118 | appends the 14 timing lines in phase order |
| Reporter.CurlTimeReporter.SendFlags | lib/reporter.py:120-122 | appends the success, timedout and error lines |
| Reporter.CurlTimeReporter.SendTransfer | lib/reporter.py:124-125 | appends the response-code and download-size lines |
| Reporter.CurlTimeReporter.SendStats | lib/reporter.py:102-125 | appends the batch of all 19 entries under `<prefix>.<sanitised stats["url"]>` |
| Reporter.CurlTimeReporter.AnalyzeUrl | lib/reporter.py:127-128 | appends the batch of the 19 entries of the dictionary probed for `url`, under the path derived from that same url |
| Reporter.ReportableSendable | lib/reporter.py:102-125 | a reportable dictionary encodes all 19 lines: no build_message call raises |
| Reporter.FlagsKept | lib/reporter.py:49-83 | the diffs block and the four last assignments keep the status flags |
| Reporter.ReportStatsRecords | lib/reporter.py:22-87 | get_url_stats returns a reportable dictionary that holds: the one-hot flags; every reported timing unchanged; every clamped diff; and the response code, size, timestamp and the url itself |
| Reporter.ReportTableOrder | lib/reporter.py:105-125 | 19 entries, in this order: each phase's reported line directly before its diff line, in phase order; then success, timedout, error; then responsecode, downloadbytes |
| Reporter.ReportStatsPhase | lib/reporter.py:22-87 | get_url_stats records, for phase k, its reported time as getinfo gave it, its clamped diff, and the timestamp |
| Reporter.ReportTablePhase | lib/reporter.py:105-118 | phase k's reported entry is at position 2k and its diff entry at 2k+1, both with the `f` format |
| Reporter.ReportTableTimingLines | lib/reporter.py:105-118 | under any metric path, the batch's lines 2k and 2k+1 carry phase k's cumulative time and its clamped duration, then the timestamp |
| Reporter.AnalyzeUrlTimingLines | lib/reporter.py:105-118 | analyze_url sends, as line 2k, `<path>.time.<phase k>.reported <cumulative time of phase k> <timestamp>\n` and, as line 2k+1, `<path>.time.<phase k>.diff <phase k's clamped duration> <timestamp>\n` |
| Reporter.AnalyzeUrlLines | lib/reporter.py:102-128 | analyze_url sends 19 lines; line i names the i-th statistic under `<prefix>.<sanitised url>.` for the analysed url, and all lines end with the probe's decimal timestamp and a newline |

## Left out

- pycurl (`Curl`, `setopt`, `perform`, `getinfo`, `close`) is a foreign library. Its effect enters as a `PerformResult` and a `CurlInfo`. The user agent, timeout, headers and gzip setting only configure that library, so they are not modelled.
- Sockets in `send_single_status`: network I/O. Delivery is modelled as appending the line to a log.
- `print` and `logging`: side effects only.
- Environment variables, command-line arguments and the exit-code-2 path of `main` (uptime.py:13-16, 142-158): configuration plumbing.
- The endless `while True` loop and its `time.sleep` (uptime.py:160-162): wall-clock scheduling. `Uptime.CheckOnce` models one pass of the loop.
- `time.time()` becomes the `timestamp` parameter.
- Floating point: timings are exact reals, so IEEE rounding in the subtractions and sums is not modelled.
- `{:f}` rendering (six decimals) is the abstract parameter `fixed`.
- The response body buffer is never read by the core.
- Timing.CalcDiff: returns the real 0.0 where calc_diff returns the int 0. Both are formatted by `{:f}` through `fixed`, so the lines are the same either way.
- Uptime.OutcomeFlags: models `except Exception` as a curl failure carrying an integer code. A non-curl exception whose first argument is not such a code is not distinguished.
- Reporter.StatusFlags: models `except Exception` in the same way as Uptime.OutcomeFlags.
- Uptime.SendStats: requires every entry to encode. With a dictionary that lacks a key, Python sends the lines before the failing one and then raises; that partial send is not modelled. Dictionaries from get_url_stats always encode (Uptime.CompleteSendable, Uptime.ProbeStatsRecords).
- Reporter.CurlTimeReporter.SendStats: requires every entry to encode, for the same reason as Uptime.SendStats. Dictionaries from get_url_stats always encode (Reporter.ReportableSendable, Reporter.ReportStatsRecords).
