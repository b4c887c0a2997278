/**
 * The agent's activity log: the messages it writes, the bounded in-memory
 * buffer that keeps the newest 1000 of them, and the query behind `GET /logs`.
 */
module AgentLog {
  import opened Wrappers
  import opened Seqs
  import Config
  import opened Ledger

  datatype Level = Info | Warn | Error

  /** The text of an `AI summary` line (its three possible sources). */
  datatype Summary =
    | Templated(farmers: nat, region: string, droughtAlert: bool, floodAlert: bool)
    | Generated(text: string)
    | Unavailable(farmers: nat)

  /**
   * Which message a log line carries, with the values interpolated into it.
   * Each alternative is one message template of the agent.
   */
  datatype Message =
    | AgentStarting(network: string, pollIntervalMs: Config.Number)
    | NoHistoricalEvents
    | HistoricalEventUnavailable(error: string)
    | PollingError(error: string)
    | WeatherEventDetected(eventId: EventId, region: string, droughtAlert: bool, floodAlert: bool)
    | NoFarmersInDistrict(district: string)
    | EvaluatingFarmers(count: nat, region: string)
    | AiSummary(summary: Summary)
    | SummaryFailed(error: string)
    | SkippingInactive(farmer: Address, region: string)
    | PreviewFailed(farmer: Address, error: string)
    | NotEligible(farmer: Address, reason: string)
    | EligibilityTxSent(farmer: Address, tx: TxHash)
    | DecisionStored(proofHash: ProofHash)
    | EligibilityTxFailed(farmer: Address, error: string)
    | SimulatedApproval(farmer: Address, txPrefix: string)
    | PaymentAlreadyExecuted(proofPrefix: string)
    | PaymentSubmitted(farmer: Address, tx: TxHash)
    | SubsidySent(amountWei: nat)
    | PaymentFailed(farmer: Address, error: string)
    | VirtualPayout(txPrefix: string)
    | VirtualTxMined(txLabel: string, txPrefix: string, gasUsed: nat)
    | VirtualTxConfirmation(txLabel: string, txPrefix: string, confirmation: nat)

  /** One log line: time of writing (ms since the epoch), level and message. */
  datatype LogEntry = LogEntry(ts: nat, level: Level, text: Message)

  /** How many lines the buffer keeps. */
  const LogMax: nat := 1000

  /**
   * The module-level log buffer. `history` is every line ever written;
   * `entries` is what the buffer holds: the newest `LogMax` of them.
   */
  class LogBuffer {
    var entries: seq<LogEntry>
    ghost var history: seq<LogEntry>

    ghost predicate Valid()
      reads this
    {
      entries == Last(history, LogMax)
    }

    constructor ()
      ensures Valid() && history == [] && entries == []
    {
      entries := [];
      history := [];
    }

    /** Appends a line; once the buffer is over `LogMax` the oldest line is dropped. */
    method AddLog(ts: nat, level: Level, text: Message) returns (entry: LogEntry)
      requires Valid()
      modifies this
      ensures Valid()
      ensures entry == LogEntry(ts, level, text)
      ensures history == old(history) + [entry]
      ensures |entries| <= LogMax
      ensures entries == (if |old(entries)| == LogMax then old(entries)[1..] else old(entries)) + [entry]
    {
      entry := LogEntry(ts, level, text);
      LastAppend(history, entry, LogMax - 1);
      LastOfLast(history, LogMax, LogMax - 1);
      entries := entries + [entry];
      if |entries| > LogMax {
        entries := entries[1..];
      }
      history := history + [entry];
    }
  }

  /** The event ids of the weather-event lines in `logs`, in order. */
  function Detections(logs: seq<LogEntry>): (ids: seq<EventId>)
    ensures |ids| <= |logs|
  {
    if logs == [] then []
    else (if logs[0].text.WeatherEventDetected? then [logs[0].text.eventId] else []) + Detections(logs[1..])
  }

  /** The number of `AI summary` lines in `logs`. */
  function SummaryCount(logs: seq<LogEntry>): (n: nat)
    ensures n <= |logs|
  {
    if logs == [] then 0
    else (if logs[0].text.AiSummary? then 1 else 0) + SummaryCount(logs[1..])
  }

  /** Lines that are neither a weather-event line nor an AI-summary line. */
  predicate Quiet(logs: seq<LogEntry>) {
    forall i :: 0 <= i < |logs| ==> !logs[i].text.WeatherEventDetected? && !logs[i].text.AiSummary?
  }

  lemma QuietAppend(a: seq<LogEntry>, b: seq<LogEntry>)
    requires Quiet(a) && Quiet(b)
    ensures Quiet(a + b)
  {
    forall i | 0 <= i < |a + b| ensures !(a + b)[i].text.WeatherEventDetected? && !(a + b)[i].text.AiSummary? {
      if i < |a| { assert (a + b)[i] == a[i]; } else { assert (a + b)[i] == b[i - |a|]; }
    }
  }

  lemma {:induction false} DetectionsAppend(a: seq<LogEntry>, b: seq<LogEntry>)
    ensures Detections(a + b) == Detections(a) + Detections(b)
    ensures SummaryCount(a + b) == SummaryCount(a) + SummaryCount(b)
  {
    if a != [] {
      assert (a + b)[1..] == a[1..] + b;
      DetectionsAppend(a[1..], b);
    } else {
      assert a + b == b;
    }
  }

  lemma {:induction false} QuietHasNone(logs: seq<LogEntry>)
    requires Quiet(logs)
    ensures Detections(logs) == [] && SummaryCount(logs) == 0
  {
    if logs != [] {
      QuietHasNone(logs[1..]);
    }
  }

  /** A query-string parameter after `Number(...)`: absent or empty, an integer, or NaN. */
  datatype QueryParam = Missing | Numeric(value: int) | NotANumber

  /** `Number(p || 0)` is a truthy number: the query filters by time. */
  predicate FiltersBySince(since: QueryParam) {
    since.Numeric? && since.value != 0
  }

  /** `Array.prototype.slice(start)` for an integer `start`. */
  function SliceFrom<T>(s: seq<T>, start: int): (r: seq<T>)
    ensures start < 0 ==> r == s[|s| - Min(-start, |s|)..]
    ensures 0 <= start ==> r == s[Min(start, |s|)..]
  {
    if start < 0 then s[|s| - Min(-start, |s|)..] else s[Min(start, |s|)..]
  }

  /** The lines written strictly after time `since`. */
  function WrittenAfter(logs: seq<LogEntry>, since: int): seq<LogEntry> {
    Filter((e: LogEntry) => e.ts > since, logs)
  }

  /** The `/logs` handler as written: `slice(-limit)` with `limit = min(Number(limit || 200), 1000)`. */
  function QueryLogsAsWritten(buffer: seq<LogEntry>, since: QueryParam, limit: QueryParam): (r: seq<LogEntry>)
    ensures |r| <= |buffer|
    ensures !FiltersBySince(since) ==> r == buffer[|buffer| - |r|..]
    ensures !FiltersBySince(since) && limit.Missing? ==> |r| == Min(200, |buffer|)
    ensures !FiltersBySince(since) && limit.NotANumber? ==> r == buffer
  {
    if FiltersBySince(since) then WrittenAfter(buffer, since.value)
    else match limit
      case Missing => SliceFrom(buffer, -200)
      case Numeric(v) => SliceFrom(buffer, -Min(v, 1000))
      case NotANumber => buffer
  }

  /** The number of newest lines a `/logs` request asks for, kept within 0..1000. */
  function EffectiveLimit(limit: QueryParam): (n: nat)
    ensures n <= LogMax
    ensures limit.Missing? || limit.NotANumber? ==> n == 200
    ensures limit.Numeric? && 0 <= limit.value <= LogMax ==> n == limit.value
    ensures limit.Numeric? && limit.value > LogMax ==> n == LogMax
    ensures limit.Numeric? && limit.value <= 0 ==> n == 0
  {
    match limit
      case Missing => 200
      case NotANumber => 200
      case Numeric(v) => if v <= 0 then 0 else Min(v, 1000)
  }

  /** The `/logs` handler with the limit kept non-negative: never more lines than asked for. */
  function QueryLogs(buffer: seq<LogEntry>, since: QueryParam, limit: QueryParam): (r: seq<LogEntry>)
    ensures |r| <= |buffer|
    ensures !FiltersBySince(since) ==> r == buffer[|buffer| - |r|..] && |r| == Min(EffectiveLimit(limit), |buffer|)
  {
    if FiltersBySince(since) then WrittenAfter(buffer, since.value)
    else Last(buffer, EffectiveLimit(limit))
  }

  /** With a non-zero `since`, exactly the lines newer than `since` come back, in buffer order. */
  lemma QuerySinceExact(buffer: seq<LogEntry>, since: QueryParam, limit: QueryParam)
    requires FiltersBySince(since)
    ensures forall e :: e in QueryLogs(buffer, since, limit) <==> e in buffer && e.ts > since.value
    ensures IsSubsequence(QueryLogs(buffer, since, limit), buffer)
    ensures forall e :: multiset(QueryLogs(buffer, since, limit))[e] == if e.ts > since.value then multiset(buffer)[e] else 0
  {
    var p := (e: LogEntry) => e.ts > since.value;
    FilterMultiset(p, buffer);
    forall e | e in buffer && e.ts > since.value
      ensures e in QueryLogs(buffer, since, limit)
    {
      FilterKeeps(p, buffer, e);
    }
    FilterIsSubsequence(p, buffer);
  }

  /** Without `since`, the newest `EffectiveLimit` lines come back: a suffix, at most 1000 long. */
  lemma QueryLimitNewest(buffer: seq<LogEntry>, since: QueryParam, limit: QueryParam)
    requires !FiltersBySince(since)
    ensures var r := QueryLogs(buffer, since, limit);
      |r| == Min(EffectiveLimit(limit), |buffer|) && |r| <= LogMax && r == buffer[|buffer| - |r|..]
  {
  }

  /** The two handlers agree whenever the requested limit is positive (or absent). */
  lemma {:induction false} QueryAgreesOnPositiveLimit(buffer: seq<LogEntry>, since: QueryParam, limit: QueryParam)
    requires limit.Missing? || (limit.Numeric? && limit.value > 0)
    ensures QueryLogsAsWritten(buffer, since, limit) == QueryLogs(buffer, since, limit)
  {
    if !FiltersBySince(since) {
      var n := EffectiveLimit(limit);
      assert QueryLogsAsWritten(buffer, since, limit) == SliceFrom(buffer, -(n as int));
    }
  }

  /** As written, `limit=0` returns the whole buffer where the newest zero lines were asked for. */
  lemma LimitZeroReturnsEverything(buffer: seq<LogEntry>)
    ensures QueryLogsAsWritten(buffer, Missing, Numeric(0)) == buffer
    ensures QueryLogs(buffer, Missing, Numeric(0)) == []
  {
  }

  /** As written, `limit=-k` drops the oldest k lines and returns the rest, however many. */
  lemma NegativeLimitDropsOldest(buffer: seq<LogEntry>, k: nat)
    requires k > 0
    ensures QueryLogsAsWritten(buffer, Missing, Numeric(-(k as int))) == buffer[Min(k, |buffer|)..]
    ensures QueryLogs(buffer, Missing, Numeric(-(k as int))) == []
  {
  }

  /**
   * As written, a limit that is not a number returns the whole buffer: `Math.min(NaN, 1000)` is NaN
   * and `slice(NaN)` starts at 0. The corrected handler falls back to the newest 200 lines.
   */
  lemma NotANumberLimitReturnsEverything(buffer: seq<LogEntry>)
    ensures QueryLogsAsWritten(buffer, Missing, NotANumber) == buffer
    ensures QueryLogs(buffer, Missing, NotANumber) == Last(buffer, 200)
    ensures |buffer| > 200 ==> QueryLogsAsWritten(buffer, Missing, NotANumber) != QueryLogs(buffer, Missing, NotANumber)
  {
  }

  /** A concrete request that shows the difference: two lines, `limit=0`. */
  lemma LimitZeroExample()
    ensures var b := [LogEntry(1, Info, NoHistoricalEvents), LogEntry(2, Info, NoHistoricalEvents)];
      |QueryLogsAsWritten(b, Missing, Numeric(0))| == 2 && |QueryLogs(b, Missing, Numeric(0))| == 0
  {
  }
}
