/**
 * Line encoding (build_message) and the batches send_stats emits.
 *
 * A line is `<path>.<stat> <value> <timestamp>\n`.  The value is formatted with
 * `{:f}` or `{:d}`; `{:f}` rendering of a number is a parameter (`fixed`) of the
 * model, `{:d}` is the decimal rendering of the Decimal module.  Looking up a
 * missing key or formatting a value of the wrong kind raises in Python; here it
 * is a Failure.
 */
module Message {
  import opened Wrappers
  import opened Sanitize
  import opened Decimal
  import opened Timing
  import opened Stats

  /** The format code passed to build_message: "f" or "d". */
  datatype Format = F | D

  /** The errors `str.format` and the dictionary lookups can raise. */
  datatype FormatError = KeyError(key: string) | ValueError

  /** Whether `{:f}` / `{:d}` accepts a value of this kind (`{:f}` takes ints and floats, `{:d}` only ints). */
  predicate Renders(fmt: Format, v: Value)
  {
    match fmt
    case F => v.Float? || v.Int?
    case D => v.Int?
  }

  function Render(fmt: Format, v: Value, fixed: real -> string): (r: Option<string>)
    ensures r.Some? <==> Renders(fmt, v)
  {
    match (fmt, v)
    case (F, Float(x)) => Some(fixed(x))
    case (F, Int(n)) => Some(fixed(n as real))
    case (D, Int(n)) => Some(DecimalString(n))
    case _ => None
  }

  predicate StartsWith(s: string, prefix: string)
  {
    |prefix| <= |s| && s[..|prefix|] == prefix
  }

  predicate EndsWith(s: string, suffix: string)
  {
    |suffix| <= |s| && s[|s| - |suffix|..] == suffix
  }

  /** The metric path shared by every line of a batch: `<prefix>.<sanitised url>`. */
  function GraphitePath(prefix: string, url: string): (path: string)
    ensures |path| > |prefix| && path[..|prefix| + 1] == prefix + "."
    ensures forall c :: c in Forbidden ==> c !in path[|prefix| + 1..]
  {
    GraphiteFriendlyUrlClean(url);
    prefix + "." + GraphiteFriendlyUrl(url)
  }

  /**
   * build_message(stat, datatype, graphite_path, stats).  It fails exactly when
   * the statistic or the timestamp is missing, or when a value does not suit its
   * format; otherwise the line is the path, the key, the value and the decimal
   * timestamp, and ends with a newline.
   */
  function BuildMessage(stat: Stat, fmt: Format, path: string, stats: StatMap, fixed: real -> string)
    : (r: Result<string, FormatError>)
    ensures r.Success? <==>
      stat in stats && Timestamp in stats && Renders(fmt, stats[stat]) && stats[Timestamp].Int?
    ensures r.Failure? && stat !in stats ==> r.error == KeyError(Name(stat))
    ensures r.Success? ==>
      && StartsWith(r.value, path + "." + Name(stat) + " ")
      && EndsWith(r.value, " " + DecimalString(stats[Timestamp].n) + "\n")
    ensures r.Success? ==>
      r.value == path + "." + Name(stat) + " " + Render(fmt, stats[stat], fixed).value
                 + " " + DecimalString(stats[Timestamp].n) + "\n"
  {
    if stat !in stats then Failure(KeyError(Name(stat)))
    else if Timestamp !in stats then Failure(KeyError("timestamp"))
    else
      match Render(fmt, stats[stat], fixed)
      case None => Failure(ValueError)
      case Some(text) =>
        match stats[Timestamp]
        case Int(ts) =>
          var line := path + "." + Name(stat) + " " + text + " " + DecimalString(ts) + "\n";
          assert line[..|path + "." + Name(stat) + " "|] == path + "." + Name(stat) + " ";
          assert line[|line| - |" " + DecimalString(ts) + "\n"|..] == " " + DecimalString(ts) + "\n";
          Success(line)
        case _ => Failure(ValueError)
  }

  /** Every entry of a send table can be encoded from these statistics, and the url is a string. */
  predicate Sendable(table: seq<(Stat, Format)>, stats: StatMap)
  {
    && Url in stats && stats[Url].Text?
    && Timestamp in stats && stats[Timestamp].Int?
    && forall i :: 0 <= i < |table| ==> table[i].0 in stats && Renders(table[i].1, stats[table[i].0])
  }

  /**
   * One line of a batch: the message build_message returns.  Where it would
   * raise, the line is empty; the sending methods require Sendable, so they
   * never reach that case.
   */
  function Line(stat: Stat, fmt: Format, path: string, stats: StatMap, fixed: real -> string): string
  {
    match BuildMessage(stat, fmt, path, stats, fixed)
    case Success(line) => line
    case Failure(_) => []
  }

  /** The lines send_stats hands to send_single_status, one per table entry, in table order. */
  function Batch(table: seq<(Stat, Format)>, path: string, stats: StatMap, fixed: real -> string): (lines: seq<string>)
    ensures |lines| == |table|
  {
    MapLines(table, (e: (Stat, Format)) => Line(e.0, e.1, path, stats, fixed))
  }

  function MapLines<T>(xs: seq<T>, f: T -> string): (ys: seq<string>)
    ensures |ys| == |xs|
  {
    if xs == [] then [] else [f(xs[0])] + MapLines(xs[1..], f)
  }

  lemma {:induction false} MapLinesAppend<T>(xs: seq<T>, zs: seq<T>, f: T -> string)
    ensures MapLines(xs + zs, f) == MapLines(xs, f) + MapLines(zs, f)
    decreases |xs|
  {
    if xs == [] {
      assert xs + zs == zs;
    } else {
      MapLinesAppend(xs[1..], zs, f);
      assert (xs + zs)[0] == xs[0];
      assert (xs + zs)[1..] == xs[1..] + zs;
      calc {
        MapLines(xs + zs, f);
        [f(xs[0])] + MapLines(xs[1..] + zs, f);
        [f(xs[0])] + (MapLines(xs[1..], f) + MapLines(zs, f));
        ([f(xs[0])] + MapLines(xs[1..], f)) + MapLines(zs, f);
      }
    }
  }

  lemma {:induction false} MapLinesAt<T>(xs: seq<T>, f: T -> string, k: nat)
    requires k < |xs|
    ensures MapLines(xs, f)[k] == f(xs[k])
  {
    if k > 0 {
      MapLinesAt(xs[1..], f, k - 1);
    }
  }

  lemma BatchAt(table: seq<(Stat, Format)>, path: string, stats: StatMap, fixed: real -> string, k: nat)
    requires k < |table|
    ensures Batch(table, path, stats, fixed)[k] == Line(table[k].0, table[k].1, path, stats, fixed)
  {
    MapLinesAt(table, (e: (Stat, Format)) => Line(e.0, e.1, path, stats, fixed), k);
  }

  /** The line of a table entry whose value is a float carries that value, rendered by `{:f}`. */
  lemma BatchAtFloat(table: seq<(Stat, Format)>, path: string, stats: StatMap, fixed: real -> string,
                     k: nat, stat: Stat, x: real, ts: int)
    requires k < |table| && table[k] == (stat, F)
    requires stat in stats && stats[stat] == Float(x) && Timestamp in stats && stats[Timestamp] == Int(ts)
    ensures Batch(table, path, stats, fixed)[k] == path + "." + Name(stat) + " " + fixed(x) + " " + DecimalString(ts) + "\n"
  {
    BatchAt(table, path, stats, fixed, k);
  }

  /** A single entry can be sent when its value is present and suits its format. */
  lemma SendableOne(stat: Stat, fmt: Format, stats: StatMap)
    requires stat in stats && Renders(fmt, stats[stat])
    requires Url in stats && stats[Url].Text? && Timestamp in stats && stats[Timestamp].Int?
    ensures Sendable([(stat, fmt)], stats)
  {
  }

  /** Two tables that can be sent make a table that can be sent. */
  lemma SendableAppend(t1: seq<(Stat, Format)>, t2: seq<(Stat, Format)>, stats: StatMap)
    requires Sendable(t1, stats) && Sendable(t2, stats)
    ensures Sendable(t1 + t2, stats)
  {
    forall i | 0 <= i < |t1 + t2|
      ensures (t1 + t2)[i].0 in stats && Renders((t1 + t2)[i].1, stats[(t1 + t2)[i].0])
    {
      if i >= |t1| {
        assert (t1 + t2)[i] == t2[i - |t1|];
      }
    }
  }

  /** Sending two tables one after the other sends the batch of their concatenation. */
  lemma BatchAppend(t1: seq<(Stat, Format)>, t2: seq<(Stat, Format)>, path: string, stats: StatMap, fixed: real -> string)
    ensures Batch(t1 + t2, path, stats, fixed) == Batch(t1, path, stats, fixed) + Batch(t2, path, stats, fixed)
  {
    MapLinesAppend(t1, t2, (e: (Stat, Format)) => Line(e.0, e.1, path, stats, fixed));
  }

  /**
   * Every line of a batch sits under `<prefix>.<sanitised url>.`, names its own
   * statistic, and ends with the one shared timestamp and a newline.
   */
  lemma BatchLines(table: seq<(Stat, Format)>, prefix: string, url: string, stats: StatMap, fixed: real -> string)
    requires Sendable(table, stats)
    ensures var lines := Batch(table, GraphitePath(prefix, url), stats, fixed);
      forall i :: 0 <= i < |lines| ==>
        && StartsWith(lines[i], prefix + "." + GraphiteFriendlyUrl(url) + "." + Name(table[i].0) + " ")
        && EndsWith(lines[i], " " + DecimalString(stats[Timestamp].n) + "\n")
  {
    var path := GraphitePath(prefix, url);
    var lines := Batch(table, path, stats, fixed);
    forall i | 0 <= i < |lines|
      ensures StartsWith(lines[i], prefix + "." + GraphiteFriendlyUrl(url) + "." + Name(table[i].0) + " ")
      ensures EndsWith(lines[i], " " + DecimalString(stats[Timestamp].n) + "\n")
    {
      BatchAt(table, path, stats, fixed, i);
      assert path + "." + Name(table[i].0) + " " == prefix + "." + GraphiteFriendlyUrl(url) + "." + Name(table[i].0) + " ";
    }
  }

  /** The pair of timing lines sent for one phase: its reported value, then its diff. */
  function PhaseTable(phase: Phase): seq<(Stat, Format)>
  {
    [(Reported(phase), F), (Diff(phase), F)]
  }

  /** The 14 timing lines both implementations send, one pair per phase, in phase order. */
  const TimingTable: seq<(Stat, Format)> :=
    PhaseTable(NameLookup) + PhaseTable(Connect) + PhaseTable(AppConnect) + PhaseTable(PreTransfer)
    + PhaseTable(StartTransfer) + PhaseTable(Redirect) + PhaseTable(Total)

  lemma TimingTableOrder()
    ensures |TimingTable| == 2 * |Phases|
    ensures forall k :: 0 <= k < |Phases| ==>
      TimingTable[2 * k] == (Reported(Phases[k]), F) && TimingTable[2 * k + 1] == (Diff(Phases[k]), F)
  {
  }

  /** A table that can be sent splits into parts that can be sent. */
  lemma SendableParts(t1: seq<(Stat, Format)>, t2: seq<(Stat, Format)>, stats: StatMap)
    requires Sendable(t1 + t2, stats)
    ensures Sendable(t1, stats) && Sendable(t2, stats)
  {
    forall i | 0 <= i < |t2| ensures t2[i].0 in stats && Renders(t2[i].1, stats[t2[i].0]) {
      assert (t1 + t2)[|t1| + i] == t2[i];
    }
    forall i | 0 <= i < |t1| ensures t1[i].0 in stats && Renders(t1[i].1, stats[t1[i].0]) {
      assert (t1 + t2)[i] == t1[i];
    }
  }

  /** Appending a batch to what was sent so far extends the table sent so far. */
  lemma SentMore(sent: seq<string>, done: seq<(Stat, Format)>, more: seq<(Stat, Format)>, path: string, stats: StatMap, fixed: real -> string)
    ensures (sent + Batch(done, path, stats, fixed)) + Batch(more, path, stats, fixed) == sent + Batch(done + more, path, stats, fixed)
  {
    BatchAppend(done, more, path, stats, fixed);
  }

  /** Each phase's pair of timing lines can be sent from a timing block that can be sent. */
  lemma TimingTableSendable(stats: StatMap)
    requires Sendable(TimingTable, stats)
    ensures forall phase :: Sendable(PhaseTable(phase), stats)
  {
    SendableParts(PhaseTable(NameLookup) + PhaseTable(Connect) + PhaseTable(AppConnect) + PhaseTable(PreTransfer) + PhaseTable(StartTransfer) + PhaseTable(Redirect), PhaseTable(Total), stats);
    SendableParts(PhaseTable(NameLookup) + PhaseTable(Connect) + PhaseTable(AppConnect) + PhaseTable(PreTransfer) + PhaseTable(StartTransfer), PhaseTable(Redirect), stats);
    SendableParts(PhaseTable(NameLookup) + PhaseTable(Connect) + PhaseTable(AppConnect) + PhaseTable(PreTransfer), PhaseTable(StartTransfer), stats);
    SendableParts(PhaseTable(NameLookup) + PhaseTable(Connect) + PhaseTable(AppConnect), PhaseTable(PreTransfer), stats);
    SendableParts(PhaseTable(NameLookup) + PhaseTable(Connect), PhaseTable(AppConnect), stats);
    SendableParts(PhaseTable(NameLookup), PhaseTable(Connect), stats);
    forall phase ensures Sendable(PhaseTable(phase), stats) {
      match phase
      case NameLookup => case Connect => case AppConnect => case PreTransfer =>
      case StartTransfer => case Redirect => case Total =>
    }
  }

  /** A phase's pair of lines encodes when both of its entries are numbers. */
  lemma PhaseSendable(phase: Phase, stats: StatMap)
    requires Reported(phase) in stats && stats[Reported(phase)].Float?
    requires Diff(phase) in stats && stats[Diff(phase)].Float?
    requires Url in stats && stats[Url].Text? && Timestamp in stats && stats[Timestamp].Int?
    ensures Sendable(PhaseTable(phase), stats)
  {
    SendableOne(Reported(phase), F, stats);
    SendableOne(Diff(phase), F, stats);
    SendableAppend([(Reported(phase), F)], [(Diff(phase), F)], stats);
    assert [(Reported(phase), F)] + [(Diff(phase), F)] == PhaseTable(phase);
  }

  /** The timing block encodes when every phase's pair does. */
  lemma PhasesSendable(stats: StatMap)
    requires forall phase :: Sendable(PhaseTable(phase), stats)
    ensures Sendable(TimingTable, stats)
  {
    SendableAppend(PhaseTable(NameLookup), PhaseTable(Connect), stats);
    SendableAppend(PhaseTable(NameLookup) + PhaseTable(Connect), PhaseTable(AppConnect), stats);
    SendableAppend(PhaseTable(NameLookup) + PhaseTable(Connect) + PhaseTable(AppConnect), PhaseTable(PreTransfer), stats);
    SendableAppend(PhaseTable(NameLookup) + PhaseTable(Connect) + PhaseTable(AppConnect) + PhaseTable(PreTransfer), PhaseTable(StartTransfer), stats);
    SendableAppend(PhaseTable(NameLookup) + PhaseTable(Connect) + PhaseTable(AppConnect) + PhaseTable(PreTransfer) + PhaseTable(StartTransfer), PhaseTable(Redirect), stats);
    SendableAppend(PhaseTable(NameLookup) + PhaseTable(Connect) + PhaseTable(AppConnect) + PhaseTable(PreTransfer) + PhaseTable(StartTransfer) + PhaseTable(Redirect), PhaseTable(Total), stats);
  }
}
