/**
 * The reporter class (lib/reporter.py): a CurlTimeReporter holds its
 * configuration and, for each url it analyses, probes it, builds the
 * statistics dictionary with one-hot status flags, and sends 19 metric lines.
 *
 * The collector is the `sent` field, the log of every line delivered so far;
 * the socket, the clock and the transfer engine are left out (the timestamp,
 * what `perform()` did and what `getinfo()` reports are parameters).
 */
module Reporter {
  import opened Timing
  import opened Sanitize
  import opened Decimal
  import opened Stats
  import opened Message

  /** The part of the configuration dictionary the core reads. */
  datatype ReporterConfig = ReporterConfig(metricPrefix: string)

  /**
   * The (status.success, status.timedout, status.error) flags: success starts at
   * 1 and is cleared when perform raises, which sets exactly one of the other two.
   */
  function StatusFlags(perform: PerformResult): (flags: (int, int, int))
    ensures flags.0 == 0 || flags.0 == 1
    ensures flags.1 == 0 || flags.1 == 1
    ensures flags.2 == 0 || flags.2 == 1
    ensures flags.0 + flags.1 + flags.2 == 1
    ensures flags.0 == 1 <==> perform.Ok?
    ensures flags.1 == 1 <==> perform == Failed(E_OPERATION_TIMEDOUT)
    ensures flags.2 == 1 <==> perform.Failed? && perform.code != E_OPERATION_TIMEDOUT
  {
    match perform
    case Ok => (1, 0, 0)
    case Failed(code) => if code == E_OPERATION_TIMEDOUT then (0, 1, 0) else (0, 0, 1)
  }

  /** The dictionary before the diffs are calculated: the three status flags. */
  function StatusHead(perform: PerformResult): StatMap
  {
    var flags := StatusFlags(perform);
    map[StatusSuccess := Int(flags.0), StatusTimedOut := Int(flags.1), StatusError := Int(flags.2)]
  }

  /** The dictionary get_url_stats returns. */
  function ReportStats(url: string, timestamp: int, perform: PerformResult, info: CurlInfo): StatMap
  {
    WithTrailer(WithTimings(StatusHead(perform), info), url, timestamp, info)
  }

  /** The status flags, sent after the timing lines. */
  const FlagTable: seq<(Stat, Format)> :=
    [(StatusSuccess, D)] + [(StatusTimedOut, D)] + [(StatusError, D)]

  /** The response code and download size, sent last. */
  const TransferTable: seq<(Stat, Format)> :=
    [(ResponseCode, D)] + [(DownloadBytes, F)]

  /** The 19 (statistic, format) pairs send_stats emits, in emission order. */
  const ReportTable: seq<(Stat, Format)> := TimingTable + FlagTable + TransferTable

  class CurlTimeReporter {
    /** The configuration, read but never changed. */
    const config: ReporterConfig
    /** Every line delivered to the collector so far, oldest first. */
    var sent: seq<string>

    constructor (config: ReporterConfig)
      ensures this.config == config && sent == []
    {
      this.config := config;
      sent := [];
    }

    /**
     * get_url_stats(url): the flags are set to success, then cleared by the
     * exception handler; the "calculate diffs" block and the four last
     * assignments follow.
     */
    method GetUrlStats(url: string, timestamp: int, perform: PerformResult, info: CurlInfo)
      returns (stats: StatMap)
      ensures stats == ReportStats(url, timestamp, perform, info)
    {
      stats := map[];
      stats := stats[StatusSuccess := Int(1)];
      stats := stats[StatusTimedOut := Int(0)];
      stats := stats[StatusError := Int(0)];
      match perform {
        case Ok =>
        case Failed(code) =>
          if code == E_OPERATION_TIMEDOUT {
            stats := stats[StatusTimedOut := Int(1)];
            stats := stats[StatusSuccess := Int(0)];
          } else {
            stats := stats[StatusError := Int(1)];
            stats := stats[StatusSuccess := Int(0)];
          }
      }
      assert stats == StatusHead(perform);
      stats := RecordTimings(stats, info);
      stats := stats[ResponseCode := Int(info.responseCode)];
      stats := stats[DownloadBytes := Float(info.downloadBytes)];
      stats := stats[Timestamp := Int(timestamp)];
      stats := stats[Url := Text(url)];
    }

    /** send_single_status: the line is delivered after those already sent. */
    method SendSingleStatus(msg: string)
      modifies this
      ensures sent == old(sent) + [msg]
    {
      sent := sent + [msg];
    }

    /** `self.send_single_status(self.build_message(stat, fmt, graphite_path, stats))`. */
    method SendOne(stat: Stat, fmt: Format, path: string, stats: StatMap, fixed: real -> string)
      modifies this
      requires stat in stats && Renders(fmt, stats[stat]) && Timestamp in stats && stats[Timestamp].Int?
      ensures sent == old(sent) + Batch([(stat, fmt)], path, stats, fixed)
    {
      var msg := BuildMessage(stat, fmt, path, stats, fixed).value;
      SendSingleStatus(msg);
    }

    /** One pair of timing lines: the phase's reported time, then its diff. */
    method SendPhase(phase: Phase, path: string, stats: StatMap, fixed: real -> string)
      modifies this
      requires Sendable(PhaseTable(phase), stats)
      ensures sent == old(sent) + Batch(PhaseTable(phase), path, stats, fixed)
    {
      assert PhaseTable(phase)[0] == (Reported(phase), F) && PhaseTable(phase)[1] == (Diff(phase), F);
      SendOne(Reported(phase), F, path, stats, fixed);
      SendOne(Diff(phase), F, path, stats, fixed);
      SentMore(old(sent), [(Reported(phase), F)], [(Diff(phase), F)], path, stats, fixed);
      assert [(Reported(phase), F)] + [(Diff(phase), F)] == PhaseTable(phase);
    }

    /** The first block of send_stats: the reported and diff lines of every phase. */
    method SendTimings(path: string, stats: StatMap, fixed: real -> string)
      modifies this
      requires Sendable(TimingTable, stats)
      ensures sent == old(sent) + Batch(TimingTable, path, stats, fixed)
    {
      TimingTableSendable(stats);
      ghost var start := sent;
      SendPhase(NameLookup, path, stats, fixed);
      ghost var done := PhaseTable(NameLookup);
      SendPhase(Connect, path, stats, fixed);
      SentMore(start, done, PhaseTable(Connect), path, stats, fixed);
      done := done + PhaseTable(Connect);
      SendPhase(AppConnect, path, stats, fixed);
      SentMore(start, done, PhaseTable(AppConnect), path, stats, fixed);
      done := done + PhaseTable(AppConnect);
      SendPhase(PreTransfer, path, stats, fixed);
      SentMore(start, done, PhaseTable(PreTransfer), path, stats, fixed);
      done := done + PhaseTable(PreTransfer);
      SendPhase(StartTransfer, path, stats, fixed);
      SentMore(start, done, PhaseTable(StartTransfer), path, stats, fixed);
      done := done + PhaseTable(StartTransfer);
      SendPhase(Redirect, path, stats, fixed);
      SentMore(start, done, PhaseTable(Redirect), path, stats, fixed);
      done := done + PhaseTable(Redirect);
      SendPhase(Total, path, stats, fixed);
      SentMore(start, done, PhaseTable(Total), path, stats, fixed);
    }

    /** The second block: the three status flags. */
    method SendFlags(path: string, stats: StatMap, fixed: real -> string)
      modifies this
      requires Sendable(FlagTable, stats)
      ensures sent == old(sent) + Batch(FlagTable, path, stats, fixed)
    {
      assert FlagTable[0] == (StatusSuccess, D);
      assert FlagTable[1] == (StatusTimedOut, D);
      assert FlagTable[2] == (StatusError, D);
      ghost var start := sent;
      SendOne(StatusSuccess, D, path, stats, fixed);
      SendOne(StatusTimedOut, D, path, stats, fixed);
      SentMore(start, [(StatusSuccess, D)], [(StatusTimedOut, D)], path, stats, fixed);
      SendOne(StatusError, D, path, stats, fixed);
      SentMore(start, [(StatusSuccess, D)] + [(StatusTimedOut, D)], [(StatusError, D)], path, stats, fixed);
    }

    /** The last block: response code and download size. */
    method SendTransfer(path: string, stats: StatMap, fixed: real -> string)
      modifies this
      requires Sendable(TransferTable, stats)
      ensures sent == old(sent) + Batch(TransferTable, path, stats, fixed)
    {
      assert TransferTable[0] == (ResponseCode, D);
      assert TransferTable[1] == (DownloadBytes, F);
      ghost var start := sent;
      SendOne(ResponseCode, D, path, stats, fixed);
      SendOne(DownloadBytes, F, path, stats, fixed);
      SentMore(start, [(ResponseCode, D)], [(DownloadBytes, F)], path, stats, fixed);
    }

    /**
     * send_stats(stats): the metric path is `<prefix>.<sanitised stats["url"]>`,
     * and the three blocks are sent one after the other.
     */
    method SendStats(stats: StatMap, fixed: real -> string)
      modifies this
      requires Sendable(ReportTable, stats)
      ensures sent == old(sent) + Batch(ReportTable, GraphitePath(config.metricPrefix, stats[Url].s), stats, fixed)
    {
      var path := GraphitePath(config.metricPrefix, stats[Url].s);
      SendableParts(TimingTable + FlagTable, TransferTable, stats);
      SendableParts(TimingTable, FlagTable, stats);
      ghost var start := sent;
      SendTimings(path, stats, fixed);
      SendFlags(path, stats, fixed);
      SentMore(start, TimingTable, FlagTable, path, stats, fixed);
      SendTransfer(path, stats, fixed);
      SentMore(start, TimingTable + FlagTable, TransferTable, path, stats, fixed);
    }

    /**
     * analyze_url(url): probe the url and send its statistics; the lines sit
     * under the path derived from that same url.
     */
    method AnalyzeUrl(url: string, timestamp: int, perform: PerformResult, info: CurlInfo, fixed: real -> string)
      modifies this
      ensures sent == old(sent) + Batch(ReportTable, GraphitePath(config.metricPrefix, url),
                                        ReportStats(url, timestamp, perform, info), fixed)
    {
      var stats := GetUrlStats(url, timestamp, perform, info);
      ReportStatsRecords(url, timestamp, perform, info);
      ReportableSendable(stats);
      SendStats(stats, fixed);
    }
  }

  /** Which keys a dictionary needs, with which kinds of value, for all 19 lines to encode. */
  predicate Reportable(stats: StatMap)
  {
    && Url in stats && stats[Url].Text? && Timestamp in stats && stats[Timestamp].Int?
    && (forall phase :: Reported(phase) in stats && stats[Reported(phase)].Float?)
    && (forall phase :: Diff(phase) in stats && stats[Diff(phase)].Float?)
    && StatusSuccess in stats && stats[StatusSuccess].Int?
    && StatusTimedOut in stats && stats[StatusTimedOut].Int?
    && StatusError in stats && stats[StatusError].Int?
    && ResponseCode in stats && stats[ResponseCode].Int? && DownloadBytes in stats && stats[DownloadBytes].Float?
  }

  /** A reportable dictionary encodes: none of the 19 build_message calls of send_stats raises. */
  lemma ReportableSendable(stats: StatMap)
    requires Reportable(stats)
    ensures Sendable(ReportTable, stats)
  {
    forall phase ensures Sendable(PhaseTable(phase), stats) {
      PhaseSendable(phase, stats);
    }
    PhasesSendable(stats);
    SendableOne(StatusSuccess, D, stats);
    SendableOne(StatusTimedOut, D, stats);
    SendableOne(StatusError, D, stats);
    SendableAppend([(StatusSuccess, D)], [(StatusTimedOut, D)], stats);
    SendableAppend([(StatusSuccess, D)] + [(StatusTimedOut, D)], [(StatusError, D)], stats);
    SendableOne(ResponseCode, D, stats);
    SendableOne(DownloadBytes, F, stats);
    SendableAppend([(ResponseCode, D)], [(DownloadBytes, F)], stats);
    SendableAppend(TimingTable, FlagTable, stats);
    SendableAppend(TimingTable + FlagTable, TransferTable, stats);
  }

  /** The status flags hold the classification of what perform did. */
  predicate FlagsRecorded(stats: StatMap, perform: PerformResult)
  {
    && StatusSuccess in stats && stats[StatusSuccess] == Int(StatusFlags(perform).0)
    && StatusTimedOut in stats && stats[StatusTimedOut] == Int(StatusFlags(perform).1)
    && StatusError in stats && stats[StatusError] == Int(StatusFlags(perform).2)
  }

  /** The "calculate diffs" block and the four last assignments leave the flags alone. */
  lemma FlagsKept(perform: PerformResult, info: CurlInfo, url: string, timestamp: int)
    ensures FlagsRecorded(WithTimings(StatusHead(perform), info), perform)
    ensures FlagsRecorded(ReportStats(url, timestamp, perform, info), perform)
  {
    var head := StatusHead(perform);
    WithTimingsFrame(head, info);
    var w := WithTimings(head, info);
    assert StatusSuccess in head && StatusTimedOut in head && StatusError in head;
    TrailerFrame(w, url, timestamp, info);
  }

  /**
   * What get_url_stats returns: exactly one status flag set, according to what
   * perform did; every reported value unchanged and every clamped diff; the
   * response code, size, timestamp and url; it is reportable, so send_stats can
   * encode all of it.
   */
  lemma ReportStatsRecords(url: string, timestamp: int, perform: PerformResult, info: CurlInfo)
    ensures var s := ReportStats(url, timestamp, perform, info);
      && Reportable(s) && FlagsRecorded(s, perform) && TimingsRecorded(s, info)
      && s[ResponseCode] == Int(info.responseCode) && s[DownloadBytes] == Float(info.downloadBytes)
      && s[Timestamp] == Int(timestamp) && s[Url] == Text(url)
  {
    var head := StatusHead(perform);
    FlagsKept(perform, info, url, timestamp);
    WithTimingsRecorded(head, info);
    var w := WithTimings(head, info);
    var r, d := Times(info), Decompose(Times(info));
    TrailerKeepsEntries(w, url, timestamp, info, r, d);
    TrailerFrame(w, url, timestamp, info);
    var s := ReportStats(url, timestamp, perform, info);
    forall phase
      ensures Reported(phase) in s && s[Reported(phase)].Float?
      ensures Diff(phase) in s && s[Diff(phase)].Float?
    {
    }
  }

  /**
   * The emission order of send_stats: each phase's reported line directly
   * followed by its diff line, then success, timedout and error, then the
   * response code and the download size.
   */
  lemma ReportTableOrder()
    ensures |ReportTable| == 19
    ensures forall k :: 0 <= k < |Phases| ==>
      ReportTable[2 * k] == (Reported(Phases[k]), F) && ReportTable[2 * k + 1] == (Diff(Phases[k]), F)
    ensures ReportTable[14] == (StatusSuccess, D) && ReportTable[15] == (StatusTimedOut, D)
    ensures ReportTable[16] == (StatusError, D)
    ensures ReportTable[17] == (ResponseCode, D) && ReportTable[18] == (DownloadBytes, F)
  {
    TimingTableOrder();
    forall k | 0 <= k < |Phases|
      ensures ReportTable[2 * k] == TimingTable[2 * k] && ReportTable[2 * k + 1] == TimingTable[2 * k + 1]
    {
    }
  }

  /**
   * analyze_url(url) sends 19 lines; line i names the i-th statistic of the
   * emission order under `<prefix>.<sanitised url>.`, where the url is the one
   * analysed, and every line ends with the probe's timestamp and a newline.
   */
  lemma AnalyzeUrlLines(config: ReporterConfig, url: string, timestamp: int, perform: PerformResult,
                        info: CurlInfo, fixed: real -> string)
    ensures var lines := Batch(ReportTable, GraphitePath(config.metricPrefix, url),
                               ReportStats(url, timestamp, perform, info), fixed);
      && |lines| == 19
      && forall i :: 0 <= i < |lines| ==>
           && StartsWith(lines[i], config.metricPrefix + "." + GraphiteFriendlyUrl(url) + "." + Name(ReportTable[i].0) + " ")
           && EndsWith(lines[i], " " + DecimalString(timestamp) + "\n")
  {
    var stats := ReportStats(url, timestamp, perform, info);
    ReportStatsRecords(url, timestamp, perform, info);
    ReportableSendable(stats);
    BatchLines(ReportTable, config.metricPrefix, url, stats, fixed);
    ReportTableOrder();
  }

  /** The statistics carry phase `k`'s cumulative time, its own duration and the timestamp. */
  lemma ReportStatsPhase(url: string, timestamp: int, perform: PerformResult, info: CurlInfo, k: nat)
    requires k < |Phases|
    ensures var s := ReportStats(url, timestamp, perform, info);
      && Reported(Phases[k]) in s && s[Reported(Phases[k])] == Float(Cumulative(info, Phases[k]))
      && Diff(Phases[k]) in s && s[Diff(Phases[k])] == Float(Decompose(Times(info))[k])
      && Timestamp in s && s[Timestamp] == Int(timestamp)
  {
    ReportStatsRecords(url, timestamp, perform, info);
    PhasesIndexed();
    assert IndexOf(Phases[k]) == k;
  }

  /** The two entries of phase `k` in the table. */
  lemma ReportTablePhase(k: nat)
    requires k < |Phases|
    ensures 2 * k + 1 < |ReportTable|
    ensures ReportTable[2 * k] == (Reported(Phases[k]), F) && ReportTable[2 * k + 1] == (Diff(Phases[k]), F)
  {
    ReportTableOrder();
  }

  /** The timing lines of a batch under any metric path: the step behind AnalyzeUrlTimingLines. */
  lemma ReportTableTimingLines(path: string, url: string, timestamp: int, perform: PerformResult, info: CurlInfo,
                 fixed: real -> string, k: nat)
    requires k < |Phases|
    ensures var lines := Batch(ReportTable, path, ReportStats(url, timestamp, perform, info), fixed);
      && lines[2 * k] == path + "." + Name(Reported(Phases[k])) + " " + fixed(Cumulative(info, Phases[k]))
                        + " " + DecimalString(timestamp) + "\n"
      && lines[2 * k + 1] == path + "." + Name(Diff(Phases[k])) + " " + fixed(Decompose(Times(info))[k])
                        + " " + DecimalString(timestamp) + "\n"
  {
    var stats := ReportStats(url, timestamp, perform, info);
    ReportStatsPhase(url, timestamp, perform, info, k);
    ReportTablePhase(k);
    var phase := Phases[k];
    BatchAtFloat(ReportTable, path, stats, fixed, 2 * k, Reported(phase), Cumulative(info, phase), timestamp);
    BatchAtFloat(ReportTable, path, stats, fixed, 2 * k + 1, Diff(phase), Decompose(Times(info))[k], timestamp);
  }

  /**
   * The timing lines analyze_url sends carry the probe's values: line 2k is
   * phase k's reported time as getinfo gave it, and line 2k + 1 its clamped diff.
   */
  lemma AnalyzeUrlTimingLines(config: ReporterConfig, url: string, timestamp: int, perform: PerformResult,
                              info: CurlInfo, fixed: real -> string, k: nat)
    requires k < |Phases|
    ensures var path := GraphitePath(config.metricPrefix, url);
      var lines := Batch(ReportTable, path, ReportStats(url, timestamp, perform, info), fixed);
      && lines[2 * k] == path + "." + Name(Reported(Phases[k])) + " " + fixed(Cumulative(info, Phases[k]))
                         + " " + DecimalString(timestamp) + "\n"
      && lines[2 * k + 1] == path + "." + Name(Diff(Phases[k])) + " " + fixed(Decompose(Times(info))[k])
                             + " " + DecimalString(timestamp) + "\n"
  {
    ReportTableTimingLines(GraphitePath(config.metricPrefix, url), url, timestamp, perform, info, fixed, k);
  }

}
