// The log entry shared by the backend log store (src/logs.rs) and the log
// viewer (src/components/LogsViewer.tsx), and the level counts both report.

module LogRecords {
  import opened Wrappers
  import opened Seqs

  datatype LogLevel = Info | Warning | Error | Debug | Success

  datatype LogCategory = System | Database | Security | Api | User | Network

  datatype LogEntry = LogEntry(
    id: string,
    timestamp: string,
    level: LogLevel,
    category: LogCategory,
    message: string,
    details: Option<string>,
    ip: Option<string>,
    user: Option<string>,
    source: string)

  /** The four numbers on the statistics cards; debug and success entries only
      count towards the total. */
  datatype LogStats = LogStats(total: nat, errors: nat, warnings: nat, info: nat)

  /** The entries at one level. */
  function AtLevel(level: LogLevel): LogEntry -> bool {
    (e: LogEntry) => e.level == level
  }

  /** How many entries are at `level`. */
  function CountLevel(logs: seq<LogEntry>, level: LogLevel): nat {
    Count(logs, AtLevel(level))
  }

  /** The error, warning and info counts never add up to more than the total;
      they fall short by exactly the debug and success entries. */
  lemma {:induction false} LevelCountsBounded(logs: seq<LogEntry>)
    ensures CountLevel(logs, Error) + CountLevel(logs, Warning) + CountLevel(logs, Info)
         + CountLevel(logs, Debug) + CountLevel(logs, Success) == |logs|
    ensures CountLevel(logs, Error) + CountLevel(logs, Warning) + CountLevel(logs, Info) <= |logs|
  {
    if logs != [] {
      LevelCountsBounded(logs[1..]);
    }
  }

  /** The statistics of a list of entries. */
  function Stats(logs: seq<LogEntry>): (r: LogStats)
    ensures r.total == |logs|
    ensures r.errors + r.warnings + r.info <= r.total
    ensures r.errors == CountLevel(logs, Error) && r.warnings == CountLevel(logs, Warning)
    ensures r.info == CountLevel(logs, Info)
  {
    LevelCountsBounded(logs);
    LogStats(|logs|, CountLevel(logs, Error), CountLevel(logs, Warning), CountLevel(logs, Info))
  }
}
