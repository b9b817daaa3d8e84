/**
 * The statistics record a probe builds (the `stats` dictionary of both
 * implementations) and the inputs it is built from.
 *
 * The transfer engine itself is not modelled: what `perform()` did and what
 * `getinfo()` reports afterwards are passed in as a PerformResult and a CurlInfo.
 */
module Stats {
  import opened Timing

  /** libcurl's CURLE_OPERATION_TIMEDOUT, the code pycurl reports for a timeout. */
  const E_OPERATION_TIMEDOUT: int := 28

  /** What `perform()` did: returned normally, or raised a pycurl error carrying a curl code. */
  datatype PerformResult = Ok | Failed(code: int)

  /** The values `getinfo()` reports after the transfer, whatever its outcome. */
  datatype CurlInfo = CurlInfo(
    nameLookup: real, connect: real, appConnect: real, preTransfer: real,
    startTransfer: real, redirect: real, total: real,
    responseCode: int, downloadBytes: real)

  /** The cumulative time getinfo reports for one checkpoint. */
  function Cumulative(info: CurlInfo, phase: Phase): real
  {
    match phase
    case NameLookup => info.nameLookup
    case Connect => info.connect
    case AppConnect => info.appConnect
    case PreTransfer => info.preTransfer
    case StartTransfer => info.startTransfer
    case Redirect => info.redirect
    case Total => info.total
  }

  /** The seven cumulative times, in phase order. */
  function Times(info: CurlInfo): (r: seq<real>)
    ensures |r| == |Phases|
    ensures forall k :: 0 <= k < |Phases| ==> r[k] == Cumulative(info, Phases[k])
  {
    [info.nameLookup, info.connect, info.appConnect, info.preTransfer,
     info.startTransfer, info.redirect, info.total]
  }

  /** The keys of the statistics dictionary. */
  datatype Stat =
    | LegacyTime(phase: Phase)       // "namelookuptime", ..., "responsetime"
    | Reported(phase: Phase)         // "time.<phase>.reported"
    | Diff(phase: Phase)             // "time.<phase>.diff"
    | TimedOutFlag | ErrorFlag       // "timedout", "error"
    | StatusSuccess | StatusTimedOut | StatusError   // "status.success", ...
    | ResponseCode | DownloadBytes | Timestamp | Url

  function PhaseName(phase: Phase): string
  {
    match phase
    case NameLookup => "namelookup"
    case Connect => "connect"
    case AppConnect => "appconnect"
    case PreTransfer => "pretransfer"
    case StartTransfer => "starttransfer"
    case Redirect => "redirect"
    case Total => "total"
  }

  /** The dictionary key of each statistic, as it appears in the metric path. */
  function Name(stat: Stat): string
  {
    match stat
    case LegacyTime(Total) => "responsetime"
    case LegacyTime(p) => PhaseName(p) + "time"
    case Reported(p) => "time." + PhaseName(p) + ".reported"
    case Diff(p) => "time." + PhaseName(p) + ".diff"
    case TimedOutFlag => "timedout"
    case ErrorFlag => "error"
    case StatusSuccess => "status.success"
    case StatusTimedOut => "status.timedout"
    case StatusError => "status.error"
    case ResponseCode => "responsecode"
    case DownloadBytes => "downloadbytes"
    case Timestamp => "timestamp"
    case Url => "url"
  }

  /** A dictionary value: a Python float, int or str. */
  datatype Value = Float(x: real) | Int(n: int) | Text(s: string)

  type StatMap = map<Stat, Value>

  /**
   * One three-line group of get_url_stats: record the reported value, record its
   * clamped diff against the running total, and advance the running total.
   * The new running total is the maximum of the old one and the reported value,
   * and the recorded diff is exactly the amount by which the total grew.
   */
  method RecordPhase(stats: StatMap, phase: Phase, reported: real, running: real)
    returns (stats': StatMap, running': real)
    ensures running' == Max(running, reported)
    ensures stats' == stats[Reported(phase) := Float(reported)][Diff(phase) := Float(running' - running)]
  {
    stats' := stats[Reported(phase) := Float(reported)];
    var diff := CalcDiff(reported, running);
    stats' := stats'[Diff(phase) := Float(diff)];
    running' := running + diff;
  }

  /**
   * The dictionary after the first k groups of the "calculate diffs" block,
   * given the reported value r[j] and the diff d[j] of each phase j.
   */
  function Recorded(stats: StatMap, r: seq<real>, d: seq<real>, k: nat): StatMap
    requires k <= |Phases| && |r| == |Phases| && |d| == |Phases|
  {
    if k == 0 then stats
    else Recorded(stats, r, d, k - 1)[Reported(Phases[k - 1]) := Float(r[k - 1])][Diff(Phases[k - 1]) := Float(d[k - 1])]
  }

  /** The dictionary after the whole "calculate diffs" block. */
  function WithTimings(stats: StatMap, info: CurlInfo): StatMap
  {
    Recorded(stats, Times(info), Decompose(Times(info)), |Phases|)
  }

  /**
   * One group of the block, as RecordPhase performs it, extends the recorded
   * dictionary by one phase and the running total to Running(Times(info), k + 1).
   */
  lemma RecordedStep(stats: StatMap, info: CurlInfo, k: nat,
                     prev: StatMap, before: real, next: StatMap, after: real)
    requires k < |Phases|
    requires prev == Recorded(stats, Times(info), Decompose(Times(info)), k)
    requires before == Running(Times(info), k)
    requires after == Max(before, Times(info)[k])
    requires next == prev[Reported(Phases[k]) := Float(Times(info)[k])][Diff(Phases[k]) := Float(after - before)]
    ensures next == Recorded(stats, Times(info), Decompose(Times(info)), k + 1)
    ensures after == Running(Times(info), k + 1)
  {
    DecomposeAt(Times(info), k);
  }

  /**
   * The "calculate diffs" block of get_url_stats: the running total starts at 0
   * and is advanced phase by phase; after phase k it equals Running(Times(info), k).
   */
  method RecordTimings(stats: StatMap, info: CurlInfo) returns (stats': StatMap)
    ensures stats' == WithTimings(stats, info)
  {
    var running := 0.0;
    ghost var before, prev := running, stats;
    stats', running := RecordPhase(stats, NameLookup, info.nameLookup, running);
    RecordedStep(stats, info, 0, prev, before, stats', running);
    before, prev := running, stats';
    stats', running := RecordPhase(stats', Connect, info.connect, running);
    RecordedStep(stats, info, 1, prev, before, stats', running);
    before, prev := running, stats';
    stats', running := RecordPhase(stats', AppConnect, info.appConnect, running);
    RecordedStep(stats, info, 2, prev, before, stats', running);
    before, prev := running, stats';
    stats', running := RecordPhase(stats', PreTransfer, info.preTransfer, running);
    RecordedStep(stats, info, 3, prev, before, stats', running);
    before, prev := running, stats';
    stats', running := RecordPhase(stats', StartTransfer, info.startTransfer, running);
    RecordedStep(stats, info, 4, prev, before, stats', running);
    before, prev := running, stats';
    stats', running := RecordPhase(stats', Redirect, info.redirect, running);
    RecordedStep(stats, info, 5, prev, before, stats', running);
    before, prev := running, stats';
    stats', running := RecordPhase(stats', Total, info.total, running);
    RecordedStep(stats, info, 6, prev, before, stats', running);
  }

  /**
   * After k groups, each processed phase's reported entry holds r and its diff
   * entry holds d; a later group never overwrites an earlier phase's entries.
   */
  lemma {:induction false} RecordedHolds(stats: StatMap, r: seq<real>, d: seq<real>, k: nat)
    requires k <= |Phases| && |r| == |Phases| && |d| == |Phases|
    ensures var s := Recorded(stats, r, d, k);
      forall j :: 0 <= j < k ==>
        && Reported(Phases[j]) in s && s[Reported(Phases[j])] == Float(r[j])
        && Diff(Phases[j]) in s && s[Diff(Phases[j])] == Float(d[j])
  {
    if k > 0 {
      RecordedHolds(stats, r, d, k - 1);
      PhasesIndexed();
      var s := Recorded(stats, r, d, k);
      forall j | 0 <= j < k - 1
        ensures Reported(Phases[j]) in s && s[Reported(Phases[j])] == Float(r[j])
        ensures Diff(Phases[j]) in s && s[Diff(Phases[j])] == Float(d[j])
      {
        assert Phases[j] != Phases[k - 1];
      }
    }
  }

  /** The groups touch only the reported and diff keys. */
  lemma {:induction false} RecordedFrame(stats: StatMap, r: seq<real>, d: seq<real>, k: nat)
    requires k <= |Phases| && |r| == |Phases| && |d| == |Phases|
    ensures var s := Recorded(stats, r, d, k);
      forall key: Stat :: !key.Reported? && !key.Diff? ==>
        (key in s <==> key in stats) && (key in stats ==> s[key] == stats[key])
  {
    if k > 0 {
      RecordedFrame(stats, r, d, k - 1);
    }
  }

  /** What the whole block records. */
  lemma WithTimingsRecords(stats: StatMap, info: CurlInfo)
    ensures var s := WithTimings(stats, info);
      forall k :: 0 <= k < |Phases| ==>
        && Reported(Phases[k]) in s && s[Reported(Phases[k])] == Float(Cumulative(info, Phases[k]))
        && Diff(Phases[k]) in s && s[Diff(Phases[k])] == Float(Decompose(Times(info))[k])
        && s[Diff(Phases[k])].x >= 0.0
  {
    RecordedHolds(stats, Times(info), Decompose(Times(info)), |Phases|);
  }

  /** The block touches only the timing keys. */
  lemma WithTimingsFrame(stats: StatMap, info: CurlInfo)
    ensures var s := WithTimings(stats, info);
      forall key: Stat :: !key.Reported? && !key.Diff? ==>
        (key in s <==> key in stats) && (key in stats ==> s[key] == stats[key])
  {
    RecordedFrame(stats, Times(info), Decompose(Times(info)), |Phases|);
  }

  /**
   * Every phase's reported entry holds r and its diff entry holds d, each
   * indexed by the phase's position in the processing order.
   */
  predicate PhaseEntries(stats: StatMap, r: seq<real>, d: seq<real>)
    requires |r| == |Phases| && |d| == |Phases|
  {
    forall phase ::
      && Reported(phase) in stats && stats[Reported(phase)] == Float(r[IndexOf(phase)])
      && Diff(phase) in stats && stats[Diff(phase)] == Float(d[IndexOf(phase)])
  }

  /**
   * Every phase's reported entry holds the value read for it, and its diff entry
   * holds that phase's share of the clamped decomposition.
   */
  predicate TimingsRecorded(stats: StatMap, info: CurlInfo)
  {
    PhaseEntries(stats, Times(info), Decompose(Times(info)))
  }

  lemma WithTimingsRecorded(stats: StatMap, info: CurlInfo)
    ensures TimingsRecorded(WithTimings(stats, info), info)
  {
    var r, d := Times(info), Decompose(Times(info));
    RecordedHolds(stats, r, d, |Phases|);
    var w := Recorded(stats, r, d, |Phases|);
    forall phase
      ensures Reported(phase) in w && w[Reported(phase)] == Float(r[IndexOf(phase)])
      ensures Diff(phase) in w && w[Diff(phase)] == Float(d[IndexOf(phase)])
    {
      var k := IndexOf(phase);
    }
  }

  /** The four last assignments of get_url_stats: response code, size, timestamp and url. */
  function WithTrailer(stats: StatMap, url: string, timestamp: int, info: CurlInfo): StatMap
  {
    stats[ResponseCode := Int(info.responseCode)][DownloadBytes := Float(info.downloadBytes)]
         [Timestamp := Int(timestamp)][Url := Text(url)]
  }

  /** The four last assignments write their four keys and leave every other entry alone. */
  lemma TrailerFrame(stats: StatMap, url: string, timestamp: int, info: CurlInfo)
    ensures var s := WithTrailer(stats, url, timestamp, info);
      && s[ResponseCode] == Int(info.responseCode) && s[DownloadBytes] == Float(info.downloadBytes)
      && s[Timestamp] == Int(timestamp) && s[Url] == Text(url)
      && forall key :: key !in {ResponseCode, DownloadBytes, Timestamp, Url} ==>
           (key in s <==> key in stats) && (key in stats ==> s[key] == stats[key])
  {
  }

  /** The four last assignments keep the reported and diff entries. */
  lemma TrailerKeepsEntries(w: StatMap, url: string, timestamp: int, info: CurlInfo, r: seq<real>, d: seq<real>)
    requires |r| == |Phases| && |d| == |Phases|
    requires PhaseEntries(w, r, d)
    ensures PhaseEntries(WithTrailer(w, url, timestamp, info), r, d)
  {
    var s := WithTrailer(w, url, timestamp, info);
    forall phase
      ensures Reported(phase) in s && s[Reported(phase)] == w[Reported(phase)]
      ensures Diff(phase) in s && s[Diff(phase)] == w[Diff(phase)]
    {
    }
  }
}
