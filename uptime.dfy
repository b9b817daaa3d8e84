/**
 * The single-target probe script (uptime.py): probe one url, build the
 * statistics dictionary, and send 25 metric lines to the collector.
 *
 * The collector is a log of sent lines threaded through the sending methods;
 * the socket, the clock and the infinite scheduling loop are left out.
 */
module Uptime {
  import opened Timing
  import opened Sanitize
  import opened Decimal
  import opened Stats
  import opened Message

  /** The parts of the configuration dictionary the core reads. */
  datatype Config = Config(url: string, metricPrefix: string)

  /**
   * The ("timedout", "error") flags: both 0 when perform succeeds, timedout on a
   * timeout, error on any other failure; never both set.
   */
  function OutcomeFlags(perform: PerformResult): (flags: (int, int))
    ensures flags.0 == 0 || flags.0 == 1
    ensures flags.1 == 0 || flags.1 == 1
    ensures flags.0 + flags.1 <= 1
    ensures flags.0 == 1 <==> perform == Failed(E_OPERATION_TIMEDOUT)
    ensures flags.1 == 1 <==> perform.Failed? && perform.code != E_OPERATION_TIMEDOUT
  {
    match perform
    case Ok => (0, 0)
    case Failed(code) => if code == E_OPERATION_TIMEDOUT then (1, 0) else (0, 1)
  }

  /** The dictionary before the diffs are calculated: the flags and the deprecated timing keys. */
  function HeadStats(perform: PerformResult, info: CurlInfo): StatMap
  {
    var flags := OutcomeFlags(perform);
    map[TimedOutFlag := Int(flags.0), ErrorFlag := Int(flags.1),
        LegacyTime(NameLookup) := Float(info.nameLookup), LegacyTime(Connect) := Float(info.connect),
        LegacyTime(AppConnect) := Float(info.appConnect), LegacyTime(PreTransfer) := Float(info.preTransfer),
        LegacyTime(StartTransfer) := Float(info.startTransfer), LegacyTime(Total) := Float(info.total),
        LegacyTime(Redirect) := Float(info.redirect)]
  }

  /** The dictionary get_url_stats returns. */
  function ProbeStats(url: string, timestamp: int, perform: PerformResult, info: CurlInfo): StatMap
  {
    WithTrailer(WithTimings(HeadStats(perform, info), info), url, timestamp, info)
  }

  /**
   * get_url_stats: fill the dictionary step by step (flags, deprecated timing
   * keys, the "calculate diffs" block, then response code, size, timestamp, url).
   */
  method GetUrlStats(config: Config, timestamp: int, perform: PerformResult, info: CurlInfo)
    returns (stats: StatMap)
    ensures stats == ProbeStats(config.url, timestamp, perform, info)
  {
    stats := map[];
    stats := stats[TimedOutFlag := Int(0)];
    stats := stats[ErrorFlag := Int(0)];
    match perform {
      case Ok =>
      case Failed(code) =>
        if code == E_OPERATION_TIMEDOUT {
          stats := stats[TimedOutFlag := Int(1)];
        } else {
          stats := stats[ErrorFlag := Int(1)];
        }
    }
    ghost var flags := OutcomeFlags(perform);
    assert stats == map[TimedOutFlag := Int(flags.0), ErrorFlag := Int(flags.1)];

    stats := stats[LegacyTime(NameLookup) := Float(info.nameLookup)];
    stats := stats[LegacyTime(Connect) := Float(info.connect)];
    stats := stats[LegacyTime(AppConnect) := Float(info.appConnect)];
    stats := stats[LegacyTime(PreTransfer) := Float(info.preTransfer)];
    stats := stats[LegacyTime(StartTransfer) := Float(info.startTransfer)];
    stats := stats[LegacyTime(Total) := Float(info.total)];
    stats := stats[LegacyTime(Redirect) := Float(info.redirect)];

    stats := RecordTimings(stats, info);

    stats := stats[ResponseCode := Int(info.responseCode)];
    stats := stats[DownloadBytes := Float(info.downloadBytes)];
    stats := stats[Timestamp := Int(timestamp)];
    stats := stats[Url := Text(config.url)];
  }

  /** The deprecated timing lines, sent first: one entry per send_single_status call. */
  const LegacyTable: seq<(Stat, Format)> :=
    [(LegacyTime(NameLookup), F)] + [(LegacyTime(Connect), F)] + [(LegacyTime(AppConnect), F)]
    + [(LegacyTime(PreTransfer), F)] + [(LegacyTime(StartTransfer), F)] + [(LegacyTime(Redirect), F)]
    + [(LegacyTime(Total), F)]

  /** The outcome flags, response code and download size, sent last. */
  const StatusTable: seq<(Stat, Format)> :=
    [(TimedOutFlag, D)] + [(ErrorFlag, D)] + [(ResponseCode, D)] + [(DownloadBytes, F)]

  /** The 25 (statistic, format) pairs send_stats emits, in emission order. */
  const SendTable: seq<(Stat, Format)> := LegacyTable + TimingTable + StatusTable

  /** send_single_status: the line is delivered to the collector, after those already sent. */
  method SendSingleStatus(msg: string, sent: seq<string>) returns (sent': seq<string>)
    ensures sent' == sent + [msg]
  {
    sent' := sent + [msg];
  }

  /** `send_single_status(build_message(stat, fmt, graphite_path, stats), config)`. */
  method SendOne(stat: Stat, fmt: Format, path: string, stats: StatMap, fixed: real -> string, sent: seq<string>)
    returns (sent': seq<string>)
    requires stat in stats && Renders(fmt, stats[stat]) && Timestamp in stats && stats[Timestamp].Int?
    ensures sent' == sent + Batch([(stat, fmt)], path, stats, fixed)
  {
    var msg := BuildMessage(stat, fmt, path, stats, fixed).value;
    sent' := SendSingleStatus(msg, sent);
  }

  /** The first block of send_stats: the seven deprecated timing lines. */
  method SendLegacyTimes(path: string, stats: StatMap, fixed: real -> string, sent: seq<string>)
    returns (sent': seq<string>)
    requires Sendable(LegacyTable, stats)
    ensures sent' == sent + Batch(LegacyTable, path, stats, fixed)
  {
    assert LegacyTable[0] == (LegacyTime(NameLookup), F);
    assert LegacyTable[1] == (LegacyTime(Connect), F);
    assert LegacyTable[2] == (LegacyTime(AppConnect), F);
    assert LegacyTable[3] == (LegacyTime(PreTransfer), F);
    assert LegacyTable[4] == (LegacyTime(StartTransfer), F);
    assert LegacyTable[5] == (LegacyTime(Redirect), F);
    assert LegacyTable[6] == (LegacyTime(Total), F);
    sent' := SendOne(LegacyTime(NameLookup), F, path, stats, fixed, sent);
    ghost var done := [(LegacyTime(NameLookup), F)];
    sent' := SendOne(LegacyTime(Connect), F, path, stats, fixed, sent');
    SentMore(sent, done, [(LegacyTime(Connect), F)], path, stats, fixed);
    done := done + [(LegacyTime(Connect), F)];
    sent' := SendOne(LegacyTime(AppConnect), F, path, stats, fixed, sent');
    SentMore(sent, done, [(LegacyTime(AppConnect), F)], path, stats, fixed);
    done := done + [(LegacyTime(AppConnect), F)];
    sent' := SendOne(LegacyTime(PreTransfer), F, path, stats, fixed, sent');
    SentMore(sent, done, [(LegacyTime(PreTransfer), F)], path, stats, fixed);
    done := done + [(LegacyTime(PreTransfer), F)];
    sent' := SendOne(LegacyTime(StartTransfer), F, path, stats, fixed, sent');
    SentMore(sent, done, [(LegacyTime(StartTransfer), F)], path, stats, fixed);
    done := done + [(LegacyTime(StartTransfer), F)];
    sent' := SendOne(LegacyTime(Redirect), F, path, stats, fixed, sent');
    SentMore(sent, done, [(LegacyTime(Redirect), F)], path, stats, fixed);
    done := done + [(LegacyTime(Redirect), F)];
    sent' := SendOne(LegacyTime(Total), F, path, stats, fixed, sent');
    SentMore(sent, done, [(LegacyTime(Total), F)], path, stats, fixed);
    done := done + [(LegacyTime(Total), F)];
    assert done == LegacyTable;
  }

  /** One pair of lines of the second block: the phase's reported time, then its diff. */
  method SendPhase(phase: Phase, path: string, stats: StatMap, fixed: real -> string, sent: seq<string>)
    returns (sent': seq<string>)
    requires Sendable(PhaseTable(phase), stats)
    ensures sent' == sent + Batch(PhaseTable(phase), path, stats, fixed)
  {
    assert PhaseTable(phase)[0] == (Reported(phase), F) && PhaseTable(phase)[1] == (Diff(phase), F);
    sent' := SendOne(Reported(phase), F, path, stats, fixed, sent);
    sent' := SendOne(Diff(phase), F, path, stats, fixed, sent');
    SentMore(sent, [(Reported(phase), F)], [(Diff(phase), F)], path, stats, fixed);
    assert [(Reported(phase), F)] + [(Diff(phase), F)] == PhaseTable(phase);
  }

  /** The second block of send_stats: the reported and diff lines of every phase. */
  method SendTimings(path: string, stats: StatMap, fixed: real -> string, sent: seq<string>)
    returns (sent': seq<string>)
    requires Sendable(TimingTable, stats)
    ensures sent' == sent + Batch(TimingTable, path, stats, fixed)
  {
    TimingTableSendable(stats);
    sent' := SendPhase(NameLookup, path, stats, fixed, sent);
    ghost var done := PhaseTable(NameLookup);
    sent' := SendPhase(Connect, path, stats, fixed, sent');
    SentMore(sent, done, PhaseTable(Connect), path, stats, fixed);
    done := done + PhaseTable(Connect);
    sent' := SendPhase(AppConnect, path, stats, fixed, sent');
    SentMore(sent, done, PhaseTable(AppConnect), path, stats, fixed);
    done := done + PhaseTable(AppConnect);
    sent' := SendPhase(PreTransfer, path, stats, fixed, sent');
    SentMore(sent, done, PhaseTable(PreTransfer), path, stats, fixed);
    done := done + PhaseTable(PreTransfer);
    sent' := SendPhase(StartTransfer, path, stats, fixed, sent');
    SentMore(sent, done, PhaseTable(StartTransfer), path, stats, fixed);
    done := done + PhaseTable(StartTransfer);
    sent' := SendPhase(Redirect, path, stats, fixed, sent');
    SentMore(sent, done, PhaseTable(Redirect), path, stats, fixed);
    done := done + PhaseTable(Redirect);
    sent' := SendPhase(Total, path, stats, fixed, sent');
    SentMore(sent, done, PhaseTable(Total), path, stats, fixed);
    done := done + PhaseTable(Total);
  }

  /** The last block of send_stats: outcome flags, response code and download size. */
  method SendStatus(path: string, stats: StatMap, fixed: real -> string, sent: seq<string>)
    returns (sent': seq<string>)
    requires Sendable(StatusTable, stats)
    ensures sent' == sent + Batch(StatusTable, path, stats, fixed)
  {
    assert StatusTable[0] == (TimedOutFlag, D);
    assert StatusTable[1] == (ErrorFlag, D);
    assert StatusTable[2] == (ResponseCode, D);
    assert StatusTable[3] == (DownloadBytes, F);
    sent' := SendOne(TimedOutFlag, D, path, stats, fixed, sent);
    ghost var done := [(TimedOutFlag, D)];
    sent' := SendOne(ErrorFlag, D, path, stats, fixed, sent');
    SentMore(sent, done, [(ErrorFlag, D)], path, stats, fixed);
    done := done + [(ErrorFlag, D)];
    sent' := SendOne(ResponseCode, D, path, stats, fixed, sent');
    SentMore(sent, done, [(ResponseCode, D)], path, stats, fixed);
    done := done + [(ResponseCode, D)];
    sent' := SendOne(DownloadBytes, F, path, stats, fixed, sent');
    SentMore(sent, done, [(DownloadBytes, F)], path, stats, fixed);
    done := done + [(DownloadBytes, F)];
    assert done == StatusTable;
  }

  /**
   * send_stats: the metric path is `<prefix>.<sanitised stats["url"]>`, and the
   * three blocks are sent one after the other.
   */
  method SendStats(stats: StatMap, config: Config, fixed: real -> string, sent: seq<string>)
    returns (sent': seq<string>)
    requires Sendable(SendTable, stats)
    ensures sent' == sent + Batch(SendTable, GraphitePath(config.metricPrefix, stats[Url].s), stats, fixed)
  {
    var path := GraphitePath(config.metricPrefix, stats[Url].s);
    SendableParts(LegacyTable + TimingTable, StatusTable, stats);
    SendableParts(LegacyTable, TimingTable, stats);
    sent' := SendLegacyTimes(path, stats, fixed, sent);
    sent' := SendTimings(path, stats, fixed, sent');
    SentMore(sent, LegacyTable, TimingTable, path, stats, fixed);
    sent' := SendStatus(path, stats, fixed, sent');
    SentMore(sent, LegacyTable + TimingTable, StatusTable, path, stats, fixed);
  }

  /** Which keys a dictionary needs, with which kinds of value, for all 25 lines to encode. */
  predicate Complete(stats: StatMap)
  {
    && Url in stats && stats[Url].Text? && Timestamp in stats && stats[Timestamp].Int?
    && (forall phase :: LegacyTime(phase) in stats && stats[LegacyTime(phase)].Float?)
    && (forall phase :: Reported(phase) in stats && stats[Reported(phase)].Float?)
    && (forall phase :: Diff(phase) in stats && stats[Diff(phase)].Float?)
    && TimedOutFlag in stats && stats[TimedOutFlag].Int? && ErrorFlag in stats && stats[ErrorFlag].Int?
    && ResponseCode in stats && stats[ResponseCode].Int? && DownloadBytes in stats && stats[DownloadBytes].Float?
  }

  lemma CompleteLegacy(stats: StatMap)
    requires Complete(stats)
    ensures Sendable(LegacyTable, stats)
  {
    SendableOne(LegacyTime(NameLookup), F, stats);
    SendableOne(LegacyTime(Connect), F, stats);
    SendableOne(LegacyTime(AppConnect), F, stats);
    SendableOne(LegacyTime(PreTransfer), F, stats);
    SendableOne(LegacyTime(StartTransfer), F, stats);
    SendableOne(LegacyTime(Redirect), F, stats);
    SendableOne(LegacyTime(Total), F, stats);
    SendableAppend([(LegacyTime(NameLookup), F)], [(LegacyTime(Connect), F)], stats);
    SendableAppend([(LegacyTime(NameLookup), F)] + [(LegacyTime(Connect), F)], [(LegacyTime(AppConnect), F)], stats);
    SendableAppend([(LegacyTime(NameLookup), F)] + [(LegacyTime(Connect), F)] + [(LegacyTime(AppConnect), F)], [(LegacyTime(PreTransfer), F)], stats);
    SendableAppend([(LegacyTime(NameLookup), F)] + [(LegacyTime(Connect), F)] + [(LegacyTime(AppConnect), F)] + [(LegacyTime(PreTransfer), F)], [(LegacyTime(StartTransfer), F)], stats);
    SendableAppend([(LegacyTime(NameLookup), F)] + [(LegacyTime(Connect), F)] + [(LegacyTime(AppConnect), F)] + [(LegacyTime(PreTransfer), F)] + [(LegacyTime(StartTransfer), F)], [(LegacyTime(Redirect), F)], stats);
    SendableAppend([(LegacyTime(NameLookup), F)] + [(LegacyTime(Connect), F)] + [(LegacyTime(AppConnect), F)] + [(LegacyTime(PreTransfer), F)] + [(LegacyTime(StartTransfer), F)] + [(LegacyTime(Redirect), F)], [(LegacyTime(Total), F)], stats);
  }

  lemma CompleteTimings(stats: StatMap)
    requires Complete(stats)
    ensures Sendable(TimingTable, stats)
  {
    forall phase ensures Sendable(PhaseTable(phase), stats) {
      PhaseSendable(phase, stats);
    }
    PhasesSendable(stats);
  }

  lemma CompleteStatus(stats: StatMap)
    requires Complete(stats)
    ensures Sendable(StatusTable, stats)
  {
    SendableOne(TimedOutFlag, D, stats);
    SendableOne(ErrorFlag, D, stats);
    SendableOne(ResponseCode, D, stats);
    SendableOne(DownloadBytes, F, stats);
    SendableAppend([(TimedOutFlag, D)], [(ErrorFlag, D)], stats);
    SendableAppend([(TimedOutFlag, D)] + [(ErrorFlag, D)], [(ResponseCode, D)], stats);
    SendableAppend([(TimedOutFlag, D)] + [(ErrorFlag, D)] + [(ResponseCode, D)], [(DownloadBytes, F)], stats);
  }

  /** A complete dictionary encodes: none of the 25 build_message calls of send_stats raises. */
  lemma CompleteSendable(stats: StatMap)
    requires Complete(stats)
    ensures Sendable(SendTable, stats)
  {
    CompleteLegacy(stats);
    CompleteTimings(stats);
    CompleteStatus(stats);
    SendableAppend(LegacyTable, TimingTable, stats);
    SendableAppend(LegacyTable + TimingTable, StatusTable, stats);
  }

  /** The flags and the deprecated timings hold what perform and getinfo reported. */
  predicate HeadRecorded(stats: StatMap, perform: PerformResult, info: CurlInfo)
  {
    && TimedOutFlag in stats && stats[TimedOutFlag] == Int(OutcomeFlags(perform).0)
    && ErrorFlag in stats && stats[ErrorFlag] == Int(OutcomeFlags(perform).1)
    && forall phase :: LegacyTime(phase) in stats && stats[LegacyTime(phase)] == Float(Cumulative(info, phase))
  }

  lemma HeadStatsRecorded(perform: PerformResult, info: CurlInfo)
    ensures HeadRecorded(HeadStats(perform, info), perform, info)
  {
    var head := HeadStats(perform, info);
    forall phase ensures LegacyTime(phase) in head && head[LegacyTime(phase)] == Float(Cumulative(info, phase)) {
      match phase
      case NameLookup => case Connect => case AppConnect => case PreTransfer =>
      case StartTransfer => case Redirect => case Total =>
    }
  }

  /** The "calculate diffs" block leaves the flags and the deprecated timings alone. */
  lemma WithTimingsKeepsHead(head: StatMap, perform: PerformResult, info: CurlInfo)
    requires HeadRecorded(head, perform, info)
    ensures HeadRecorded(WithTimings(head, info), perform, info)
  {
    WithTimingsFrame(head, info);
    var w := WithTimings(head, info);
    forall phase ensures LegacyTime(phase) in w && w[LegacyTime(phase)] == head[LegacyTime(phase)] {
      assert LegacyTime(phase) in head;
    }
  }

  /** The four last assignments keep the flags and deprecated timings. */
  lemma TrailerKeepsHead(w: StatMap, url: string, timestamp: int, perform: PerformResult, info: CurlInfo)
    requires HeadRecorded(w, perform, info)
    ensures HeadRecorded(WithTrailer(w, url, timestamp, info), perform, info)
  {
    TrailerFrame(w, url, timestamp, info);
  }

  /** With the head and the timings recorded, the four last assignments complete the dictionary. */
  lemma TrailerComplete(w: StatMap, url: string, timestamp: int, perform: PerformResult, info: CurlInfo,
                        r: seq<real>, d: seq<real>)
    requires |r| == |Phases| && |d| == |Phases|
    requires HeadRecorded(w, perform, info) && PhaseEntries(w, r, d)
    ensures Complete(WithTrailer(w, url, timestamp, info))
  {
    TrailerKeepsHead(w, url, timestamp, perform, info);
    TrailerKeepsEntries(w, url, timestamp, info, r, d);
    var s := WithTrailer(w, url, timestamp, info);
    forall phase
      ensures LegacyTime(phase) in s && s[LegacyTime(phase)].Float?
      ensures Reported(phase) in s && s[Reported(phase)].Float?
      ensures Diff(phase) in s && s[Diff(phase)].Float?
    {
    }
  }

  /**
   * What get_url_stats returns: the outcome flags, the deprecated timings, every
   * reported value unchanged, every clamped diff, and the response code, size,
   * timestamp and url; it is complete, so send_stats can encode all of it.
   */
  lemma ProbeStatsRecords(url: string, timestamp: int, perform: PerformResult, info: CurlInfo)
    ensures var s := ProbeStats(url, timestamp, perform, info);
      && Complete(s) && HeadRecorded(s, perform, info) && TimingsRecorded(s, info)
      && s[ResponseCode] == Int(info.responseCode) && s[DownloadBytes] == Float(info.downloadBytes)
      && s[Timestamp] == Int(timestamp) && s[Url] == Text(url)
  {
    var head := HeadStats(perform, info);
    HeadStatsRecorded(perform, info);
    WithTimingsKeepsHead(head, perform, info);
    WithTimingsRecorded(head, info);
    var w := WithTimings(head, info);
    var r, d := Times(info), Decompose(Times(info));
    TrailerKeepsHead(w, url, timestamp, perform, info);
    TrailerKeepsEntries(w, url, timestamp, info, r, d);
    TrailerComplete(w, url, timestamp, perform, info, r, d);
    TrailerFrame(w, url, timestamp, info);
  }

  /** One pass of the main loop: probe the configured url and send its statistics. */
  method CheckOnce(config: Config, timestamp: int, perform: PerformResult, info: CurlInfo,
                   fixed: real -> string, sent: seq<string>)
    returns (sent': seq<string>)
    ensures sent' == sent + Batch(SendTable, GraphitePath(config.metricPrefix, config.url),
                                  ProbeStats(config.url, timestamp, perform, info), fixed)
  {
    var stats := GetUrlStats(config, timestamp, perform, info);
    ProbeStatsRecords(config.url, timestamp, perform, info);
    CompleteSendable(stats);
    sent' := SendStats(stats, config, fixed, sent);
  }

  /**
   * The emission order of send_stats: the seven deprecated timings in phase
   * order, then each phase's reported line directly followed by its diff line,
   * then the two flags, the response code and the download size.
   */
  lemma SendTableOrder()
    ensures |SendTable| == 25
    ensures forall k :: 0 <= k < |Phases| ==> SendTable[k] == (LegacyTime(Phases[k]), F)
    ensures forall k :: 0 <= k < |Phases| ==>
      SendTable[7 + 2 * k] == (Reported(Phases[k]), F) && SendTable[8 + 2 * k] == (Diff(Phases[k]), F)
    ensures SendTable[21] == (TimedOutFlag, D) && SendTable[22] == (ErrorFlag, D)
    ensures SendTable[23] == (ResponseCode, D) && SendTable[24] == (DownloadBytes, F)
  {
    TimingTableOrder();
    forall k | 0 <= k < |Phases|
      ensures SendTable[7 + 2 * k] == TimingTable[2 * k] && SendTable[8 + 2 * k] == TimingTable[2 * k + 1]
    {
    }
  }

  /**
   * One pass sends 25 lines; line i names the i-th statistic of the emission
   * order under `<prefix>.<sanitised url>.`, and every line ends with the
   * probe's timestamp in decimal and a newline.
   */
  lemma CheckOnceLines(config: Config, timestamp: int, perform: PerformResult, info: CurlInfo, fixed: real -> string)
    ensures var lines := Batch(SendTable, GraphitePath(config.metricPrefix, config.url),
                               ProbeStats(config.url, timestamp, perform, info), fixed);
      && |lines| == 25
      && forall i :: 0 <= i < |lines| ==>
           && StartsWith(lines[i], config.metricPrefix + "." + GraphiteFriendlyUrl(config.url) + "." + Name(SendTable[i].0) + " ")
           && EndsWith(lines[i], " " + DecimalString(timestamp) + "\n")
  {
    var stats := ProbeStats(config.url, timestamp, perform, info);
    ProbeStatsRecords(config.url, timestamp, perform, info);
    CompleteSendable(stats);
    BatchLines(SendTable, config.metricPrefix, config.url, stats, fixed);
    SendTableOrder();
  }

  /** The statistics carry phase `k`'s cumulative time, its own duration and the timestamp. */
  lemma ProbeStatsPhase(url: string, timestamp: int, perform: PerformResult, info: CurlInfo, k: nat)
    requires k < |Phases|
    ensures var s := ProbeStats(url, timestamp, perform, info);
      && Reported(Phases[k]) in s && s[Reported(Phases[k])] == Float(Cumulative(info, Phases[k]))
      && Diff(Phases[k]) in s && s[Diff(Phases[k])] == Float(Decompose(Times(info))[k])
      && Timestamp in s && s[Timestamp] == Int(timestamp)
  {
    ProbeStatsRecords(url, timestamp, perform, info);
    PhasesIndexed();
    assert IndexOf(Phases[k]) == k;
  }

  /** The two entries of phase `k` in the table. */
  lemma SendTablePhase(k: nat)
    requires k < |Phases|
    ensures 8 + 2 * k < |SendTable|
    ensures SendTable[7 + 2 * k] == (Reported(Phases[k]), F) && SendTable[8 + 2 * k] == (Diff(Phases[k]), F)
  {
    SendTableOrder();
  }

  /** The timing lines of a batch under any metric path: the step behind CheckOnceTimingLines. */
  lemma SendTableTimingLines(path: string, url: string, timestamp: int, perform: PerformResult, info: CurlInfo,
                 fixed: real -> string, k: nat)
    requires k < |Phases|
    ensures var lines := Batch(SendTable, path, ProbeStats(url, timestamp, perform, info), fixed);
      && lines[7 + 2 * k] == path + "." + Name(Reported(Phases[k])) + " " + fixed(Cumulative(info, Phases[k]))
                        + " " + DecimalString(timestamp) + "\n"
      && lines[8 + 2 * k] == path + "." + Name(Diff(Phases[k])) + " " + fixed(Decompose(Times(info))[k])
                        + " " + DecimalString(timestamp) + "\n"
  {
    var stats := ProbeStats(url, timestamp, perform, info);
    ProbeStatsPhase(url, timestamp, perform, info, k);
    SendTablePhase(k);
    var phase := Phases[k];
    BatchAtFloat(SendTable, path, stats, fixed, 7 + 2 * k, Reported(phase), Cumulative(info, phase), timestamp);
    BatchAtFloat(SendTable, path, stats, fixed, 8 + 2 * k, Diff(phase), Decompose(Times(info))[k], timestamp);
  }

  /**
   * The timing lines of one pass carry the probe's values: line 7 + 2k is phase
   * k's reported time as getinfo gave it, and line 8 + 2k is its clamped diff.
   */
  lemma CheckOnceTimingLines(config: Config, timestamp: int, perform: PerformResult, info: CurlInfo,
                             fixed: real -> string, k: nat)
    requires k < |Phases|
    ensures var path := GraphitePath(config.metricPrefix, config.url);
      var lines := Batch(SendTable, path, ProbeStats(config.url, timestamp, perform, info), fixed);
      && lines[7 + 2 * k] == path + "." + Name(Reported(Phases[k])) + " " + fixed(Cumulative(info, Phases[k]))
                             + " " + DecimalString(timestamp) + "\n"
      && lines[8 + 2 * k] == path + "." + Name(Diff(Phases[k])) + " " + fixed(Decompose(Times(info))[k])
                             + " " + DecimalString(timestamp) + "\n"
  {
    SendTableTimingLines(GraphitePath(config.metricPrefix, config.url), config.url, timestamp, perform, info, fixed, k);
  }

}
