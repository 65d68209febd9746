// The backend's log store (src/logs.rs): a shared list of entries, newest first.

module LogsServer {
  import opened Wrappers
  import opened Text
  import opened LogRecords
  import opened Seqs

  class LogsStore {
    var entries: seq<LogEntry>

    /** `new_mock`: one database error and one failed login warning. */
    constructor NewMock()
      ensures |entries| == 2
      ensures entries[0].id == "1" && entries[0].level == Error && entries[0].category == Database
      ensures entries[1].id == "2" && entries[1].level == Warning && entries[1].category == Security
    {
      entries := [
        LogEntry("1", "2024-01-15 14:32:15", Error, Database, "Ошибка подключения к базе данных",
                 Some("Connection timeout after 30 seconds. Host: db.example.com:5432"), None, None,
                 "DatabaseConnector.rs:45"),
        LogEntry("2", "2024-01-15 14:31:42", Warning, Security, "Неудачная попытка входа",
                 Some("Invalid password for user: admin"), Some("192.168.1.100"), Some("admin"),
                 "AuthService.rs:120")
      ];
    }

    /** `list_logs`: a copy of the whole store. */
    method List() returns (r: seq<LogEntry>)
      ensures r == entries
    {
      r := entries;
    }

    /** `logs_stats`: the level counts of the whole store. */
    method Stats() returns (r: LogStats)
      ensures r.total == |entries|
      ensures r.errors == CountLevel(entries, Error) && r.warnings == CountLevel(entries, Warning)
      ensures r.info == CountLevel(entries, Info)
      ensures r.errors + r.warnings + r.info <= r.total
    {
      var errors := CountLevel(entries, Error);
      var warnings := CountLevel(entries, Warning);
      var info := CountLevel(entries, Info);
      LevelCountsBounded(entries);
      r := LogStats(|entries|, errors, warnings, info);
    }

    /** `push_log`: the entry's id is replaced by the clock reading in milliseconds
        and the entry goes first; the older entries follow unchanged. */
    method Push(log: LogEntry, nowMillis: int) returns (stored: LogEntry)
      modifies this
      ensures stored == log.(id := DecimalString(nowMillis))
      ensures entries == [stored] + old(entries)
    {
      stored := log.(id := DecimalString(nowMillis));
      entries := [stored] + entries;
    }
  }

  /** Pushing an entry adds one to its level's count and leaves the other counts alone. */
  lemma PushCounts(entries: seq<LogEntry>, stored: LogEntry, level: LogLevel)
    ensures CountLevel([stored] + entries, level)
         == CountLevel(entries, level) + (if stored.level == level then 1 else 0)
  {
    CountConcat([stored], entries, AtLevel(level));
  }
}
