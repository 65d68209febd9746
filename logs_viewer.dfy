// The log viewer screen (src/components/LogsViewer.tsx): the list of log
// entries, its search/level/category filters, the auto-refresh tick, the
// statistics cards and the click-to-select behaviour.

module LogsViewer {
  import opened Wrappers
  import opened Text
  import opened Seqs
  import opened LogRecords

  /** The auto-refresh tick keeps at most this many entries. */
  const MaxLogs: nat := 1000

  const AutoMessage := "Автосгенерированное событие"
  const AutoDetails := "Детали автогенерированного события"
  const AutoSource := "AutoGenerator.js:1"

  /** The eight entries the screen starts with. */
  const MockLogs: seq<LogEntry> := [Seed1, Seed2, Seed3, Seed4, Seed5, Seed6, Seed7, Seed8]

  const Seed1 := LogEntry("1", "2024-01-15 14:32:15", Error, Database, "Ошибка подключения к базе данных",
      Some("Connection timeout after 30 seconds. Host: db.example.com:5432"), None, None,
      "DatabaseConnector.js:45")
  const Seed2 := LogEntry("2", "2024-01-15 14:31:42", Warning, Security, "Неудачная попытка входа",
      Some("Invalid password for user: admin"), Some("192.168.1.100"), Some("admin"),
      "AuthService.js:120")
  const Seed3 := LogEntry("3", "2024-01-15 14:30:18", Info, System, "Сервер запущен успешно",
      Some("Server started on port 3000 with PID 12345"), None, None, "server.js:10")
  const Seed4 := LogEntry("4", "2024-01-15 14:29:55", Success, User, "Новый пользователь зарегистрирован",
      Some("User ID: 1001, Username: newuser"), Some("10.0.0.50"), Some("newuser"),
      "UserController.js:67")
  const Seed5 := LogEntry("5", "2024-01-15 14:28:33", Debug, Api, "API запрос выполнен",
      Some("GET /api/users - 200 OK (125ms)"), Some("192.168.1.200"), None, "ApiLogger.js:25")
  const Seed6 := LogEntry("6", "2024-01-15 14:27:12", Warning, Network, "Высокая нагрузка на сеть",
      Some("Network usage: 85% of available bandwidth"), None, None, "NetworkMonitor.js:88")
  const Seed7 := LogEntry("7", "2024-01-15 14:25:45", Error, System, "Недостаточно места на диске",
      Some("Disk usage: 95% on /var/log partition"), None, None, "DiskMonitor.js:34")
  const Seed8 := LogEntry("8", "2024-01-15 14:24:20", Info, Security, "SSL сертификат обновлен",
      Some("Certificate renewed for domain: example.com"), None, None, "SSLManager.js:156")

  /** The seed: eight entries, two errors, two warnings, two info. */
  lemma MockLogsCounts()
    ensures |MockLogs| == 8
    ensures CountLevel(MockLogs, Error) == 2
    ensures CountLevel(MockLogs, Warning) == 2 && CountLevel(MockLogs, Info) == 2
  {
    var s := MockLogs;
    assert CountLevel(s[7..], Error) == 0 && CountLevel(s[7..], Warning) == 0 && CountLevel(s[7..], Info) == 1;
    assert CountLevel(s[6..], Error) == 1 && CountLevel(s[6..], Warning) == 0 && CountLevel(s[6..], Info) == 1;
    assert CountLevel(s[5..], Error) == 1 && CountLevel(s[5..], Warning) == 1 && CountLevel(s[5..], Info) == 1;
    assert CountLevel(s[4..], Error) == 1 && CountLevel(s[4..], Warning) == 1 && CountLevel(s[4..], Info) == 1;
    assert CountLevel(s[3..], Error) == 1 && CountLevel(s[3..], Warning) == 1 && CountLevel(s[3..], Info) == 1;
    assert CountLevel(s[2..], Error) == 1 && CountLevel(s[2..], Warning) == 1 && CountLevel(s[2..], Info) == 2;
    assert CountLevel(s[1..], Error) == 1 && CountLevel(s[1..], Warning) == 2 && CountLevel(s[1..], Info) == 2;
    assert CountLevel(s[0..], Error) == 2 && CountLevel(s[0..], Warning) == 2 && CountLevel(s[0..], Info) == 2;
    assert s[0..] == s;
  }

  // ---------------------------------------------------------------- filters

  /** The search box: an empty query lets everything through; otherwise the query
      must occur, ignoring case, in the message, the details (when present) or the source. */
  predicate SearchMatches(log: LogEntry, query: string) {
    query == ""
    || Contains(Lower(log.message), Lower(query))
    || (log.details.Some? && Contains(Lower(log.details.value), Lower(query)))
    || Contains(Lower(log.source), Lower(query))
  }

  predicate LevelMatches(log: LogEntry, level: Choice<LogLevel>) {
    level.All? || log.level == level.choice
  }

  predicate CategoryMatches(log: LogEntry, category: Choice<LogCategory>) {
    category.All? || log.category == category.choice
  }

  /** An entry is shown when it passes all three filters. */
  predicate Shown(log: LogEntry, query: string, level: Choice<LogLevel>, category: Choice<LogCategory>) {
    SearchMatches(log, query) && LevelMatches(log, level) && CategoryMatches(log, category)
  }

  function ShownBy(query: string, level: Choice<LogLevel>, category: Choice<LogCategory>): LogEntry -> bool {
    log => Shown(log, query, level, category)
  }

  function BySearch(query: string): LogEntry -> bool {
    log => SearchMatches(log, query)
  }

  function ByLevel(level: Choice<LogLevel>): LogEntry -> bool {
    log => LevelMatches(log, level)
  }

  function ByCategory(category: Choice<LogCategory>): LogEntry -> bool {
    log => CategoryMatches(log, category)
  }

  /** With every filter at its default nothing is hidden. */
  lemma NoFilterShowsAll(logs: seq<LogEntry>)
    ensures Filter(logs, ShownBy("", All, All)) == logs
  {
    FilterKeepsAll(logs, ShownBy("", All, All));
  }

  /** The entry the auto-refresh tick makes. */
  function AutoEntry(nowMillis: int, timestamp: string, level: LogLevel, category: LogCategory): (r: LogEntry)
    ensures r.id == DecimalString(nowMillis) && r.timestamp == timestamp
    ensures r.level == level && r.category == category
    ensures r.message == AutoMessage && r.details == Some(AutoDetails) && r.source == AutoSource
    ensures r.ip.None? && r.user.None?
  {
    LogEntry(DecimalString(nowMillis), timestamp, level, category, AutoMessage, Some(AutoDetails), None, None,
             AutoSource)
  }

  /** `[entry, ...logs].slice(0, MaxLogs)`. */
  function PrependCapped(entry: LogEntry, logs: seq<LogEntry>): (r: seq<LogEntry>)
    ensures 0 < |r| <= MaxLogs && r[0] == entry
    ensures |logs| < MaxLogs ==> r == [entry] + logs
    ensures r[1..] <= logs
  {
    var all := [entry] + logs;
    if |all| <= MaxLogs then all else all[..MaxLogs]
  }

  /** What the filtering effect maintains after every render, and the tick's cap. */
  ghost predicate Consistent(logs: seq<LogEntry>, filtered: seq<LogEntry>, query: string,
                             level: Choice<LogLevel>, category: Choice<LogCategory>) {
    filtered == Filter(logs, ShownBy(query, level, category)) && |logs| <= MaxLogs
  }

  /** The seed fits under the cap and is shown whole before any filter is set. */
  lemma InitialConsistent()
    ensures Consistent(MockLogs, MockLogs, "", All, All)
  {
    NoFilterShowsAll(MockLogs);
    assert |MockLogs| == 8;
  }

  class LogsViewer {
    var logs: seq<LogEntry>
    var filteredLogs: seq<LogEntry>
    var searchQuery: string
    var levelFilter: Choice<LogLevel>
    var categoryFilter: Choice<LogCategory>
    var autoRefresh: bool
    var selectedLog: Option<LogEntry>

    ghost predicate Valid()
      reads this
    {
      Consistent(logs, filteredLogs, searchQuery, levelFilter, categoryFilter)
    }

    constructor ()
      ensures Valid()
      ensures logs == MockLogs && filteredLogs == MockLogs
      ensures searchQuery == "" && levelFilter == All && categoryFilter == All
      ensures !autoRefresh && selectedLog.None?
    {
      InitialConsistent();
      logs := MockLogs;
      filteredLogs := MockLogs;
      searchQuery := "";
      levelFilter := All;
      categoryFilter := All;
      autoRefresh := false;
      selectedLog := None;
    }

    /** The filtering effect: search, then level, then category, each skipped at its default. */
    method ApplyFilters()
      modifies this
      requires |logs| <= MaxLogs
      ensures Valid()
      ensures logs == old(logs) && searchQuery == old(searchQuery)
      ensures levelFilter == old(levelFilter) && categoryFilter == old(categoryFilter)
      ensures autoRefresh == old(autoRefresh) && selectedLog == old(selectedLog)
    {
      var filtered := logs;
      if searchQuery != "" {
        filtered := Filter(filtered, BySearch(searchQuery));
      } else {
        FilterKeepsAll(filtered, BySearch(searchQuery));
      }
      if levelFilter != All {
        filtered := Filter(filtered, ByLevel(levelFilter));
      } else {
        FilterKeepsAll(filtered, ByLevel(levelFilter));
      }
      if categoryFilter != All {
        filtered := Filter(filtered, ByCategory(categoryFilter));
      } else {
        FilterKeepsAll(filtered, ByCategory(categoryFilter));
      }
      FilterThrice(logs, BySearch(searchQuery), ByLevel(levelFilter), ByCategory(categoryFilter),
                   ShownBy(searchQuery, levelFilter, categoryFilter));
      filteredLogs := filtered;
    }

    method SetSearchQuery(query: string)
      requires Valid()
      modifies this
      ensures Valid() && searchQuery == query
      ensures logs == old(logs) && levelFilter == old(levelFilter) && categoryFilter == old(categoryFilter)
      ensures selectedLog == old(selectedLog) && autoRefresh == old(autoRefresh)
    {
      searchQuery := query;
      ApplyFilters();
    }

    method SetLevelFilter(level: Choice<LogLevel>)
      requires Valid()
      modifies this
      ensures Valid() && levelFilter == level
      ensures logs == old(logs) && searchQuery == old(searchQuery) && categoryFilter == old(categoryFilter)
      ensures selectedLog == old(selectedLog) && autoRefresh == old(autoRefresh)
    {
      levelFilter := level;
      ApplyFilters();
    }

    method SetCategoryFilter(category: Choice<LogCategory>)
      requires Valid()
      modifies this
      ensures Valid() && categoryFilter == category
      ensures logs == old(logs) && searchQuery == old(searchQuery) && levelFilter == old(levelFilter)
      ensures selectedLog == old(selectedLog) && autoRefresh == old(autoRefresh)
    {
      categoryFilter := category;
      ApplyFilters();
    }

    /** The "Автообновление" switch. */
    method SetAutoRefresh(on: bool)
      requires Valid()
      modifies this
      ensures Valid() && autoRefresh == on
      ensures logs == old(logs) && filteredLogs == old(filteredLogs) && selectedLog == old(selectedLog)
      ensures searchQuery == old(searchQuery) && levelFilter == old(levelFilter)
      ensures categoryFilter == old(categoryFilter)
    {
      autoRefresh := on;
    }

    /** One auto-refresh tick: a generated entry goes first and the list is cut to
        `MaxLogs`. The level and category are the random picks of the source. */
    method Tick(nowMillis: int, timestamp: string, level: LogLevel, category: LogCategory)
      requires Valid() && autoRefresh
      modifies this
      ensures Valid()
      ensures logs == PrependCapped(AutoEntry(nowMillis, timestamp, level, category), old(logs))
      ensures Shown(logs[0], searchQuery, levelFilter, categoryFilter) ==> filteredLogs[0] == logs[0]
      ensures searchQuery == old(searchQuery) && levelFilter == old(levelFilter)
      ensures categoryFilter == old(categoryFilter) && autoRefresh && selectedLog == old(selectedLog)
    {
      logs := PrependCapped(AutoEntry(nowMillis, timestamp, level, category), logs);
      ApplyFilters();
      assert logs == [logs[0]] + logs[1..];
      FilterConcat([logs[0]], logs[1..], ShownBy(searchQuery, levelFilter, categoryFilter));
    }

    /** `handleRefresh`: the list is replaced by a copy of itself. */
    method Refresh()
      requires Valid()
      modifies this
      ensures Valid()
      ensures logs == old(logs) && filteredLogs == old(filteredLogs) && selectedLog == old(selectedLog)
      ensures searchQuery == old(searchQuery) && levelFilter == old(levelFilter)
      ensures categoryFilter == old(categoryFilter) && autoRefresh == old(autoRefresh)
    {
      logs := logs[..];
      ApplyFilters();
    }

    /** A click on an entry: the selected entry (same id) is deselected, any other is selected. */
    method ClickLog(log: LogEntry)
      requires Valid()
      modifies this
      ensures Valid()
      ensures old(selectedLog).Some? && old(selectedLog).value.id == log.id ==> selectedLog.None?
      ensures !(old(selectedLog).Some? && old(selectedLog).value.id == log.id) ==> selectedLog == Some(log)
      ensures logs == old(logs) && filteredLogs == old(filteredLogs)
      ensures searchQuery == old(searchQuery) && levelFilter == old(levelFilter)
      ensures categoryFilter == old(categoryFilter) && autoRefresh == old(autoRefresh)
    {
      if selectedLog.Some? && selectedLog.value.id == log.id {
        selectedLog := None;
      } else {
        selectedLog := Some(log);
      }
    }

    /** `getLogStats`: the cards count the entries currently shown. */
    method GetLogStats() returns (r: LogStats)
      requires Valid()
      ensures r.total == |filteredLogs| && r.total <= |logs|
      ensures r.errors == CountLevel(filteredLogs, Error) && r.warnings == CountLevel(filteredLogs, Warning)
      ensures r.info == CountLevel(filteredLogs, Info)
      ensures r.errors + r.warnings + r.info <= r.total
    {
      r := Stats(filteredLogs);
    }
  }
}
