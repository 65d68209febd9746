/** The terminal panel (src/components/Terminal.tsx): a scrollback, a command
    history with a cursor, and the delayed resolution of each submitted command. */
module TerminalPanel {
  import opened Wrappers
  import opened Text
  import opened TerminalLines

  const TopText: string := "Tasks: 245 total,   2 running, 243 sleeping,   0 stopped,   0 zombie\n%Cpu(s):  5.2 us,  2.1 sy,  0.0 ni, 92.1 id,  0.6 wa,  0.0 hi,  0.0 si,  0.0 st\nMiB Mem :   7982.4 total,   3247.8 free,   2134.2 used,   2600.4 buff/cache\nMiB Swap:   2048.0 total,   2048.0 free,      0.0 used.   5468.7 avail Mem\n\n  PID USER      PR  NI    VIRT    RES    SHR S  %CPU  %MEM     TIME+ COMMAND\n 1234 www-data  20   0  125672  12456   8932 S   2.3   0.2   1:23.45 nginx\n 5678 mysql     20   0 1623456 234567  45678 S   1.7   2.9  45:67.89 mysqld\n 9012 node      20   0  789123  67890  12345 S   1.2   0.8  12:34.56 node"

  const NetstatText: string := "Active Internet connections (only servers)\nProto Recv-Q Send-Q Local Address           Foreign Address         State\ntcp        0      0 0.0.0.0:22              0.0.0.0:*               LISTEN\ntcp        0      0 127.0.0.1:3306          0.0.0.0:*               LISTEN\ntcp        0      0 0.0.0.0:80              0.0.0.0:*               LISTEN\ntcp        0      0 0.0.0.0:443             0.0.0.0:*               LISTEN"

  const HelpText: string := "Доступные команды:\nls, pwd, whoami, date, ps aux, df -h, free -h, uptime, top, netstat, clear, help\nИспользуйте стрелки вверх/вниз для навигации по истории команд."

  const LsText: string := "index.html  style.css  script.js  package.json  node_modules/"
  const PsAuxText: string := "USER       PID  %CPU %MEM    VSZ   RSS TTY      STAT START   TIME COMMAND\nroot         1   0.0  0.1  225316  9072 ?        Ss   Dec01   0:04 /sbin/init\nroot         2   0.0  0.0      0     0 ?        S    Dec01   0:00 [kthreadd]\nroot         3   0.0  0.0      0     0 ?        I<   Dec01   0:00 [rcu_gp]"
  const DfText: string := "Filesystem      Size  Used Avail Use% Mounted on\n/dev/sda1        20G  8.5G   11G  45% /\ntmpfs           2.0G     0  2.0G   0% /dev/shm\n/dev/sda2       100G   45G   50G  48% /home"
  const FreeText: string := "               total        used        free      shared  buff/cache   available\nMem:           7.8Gi       2.1Gi       3.2Gi       156Mi       2.5Gi       5.4Gi\nSwap:          2.0Gi          0B       2.0Gi"
  const UptimeText: string := "up 15 days,  4:32,  3 users,  load average: 0.52, 0.58, 0.61"

  /** The commands that `help` lists, in its order. */
  const AdvertisedCommands: seq<string> := ["ls", "pwd", "whoami", "date", "ps aux", "df -h", "free -h", "uptime", "top", "netstat", "clear", "help"]

  /** `mockCommands[cmd]`: the dictionary text of a listed command, and nothing for
      any other. The `date` entry is the page-load time rendered as text. */
  function MockCommand(cmd: string, dateText: string): (r: Option<string>)
    ensures r.Some? ==> cmd in AdvertisedCommands
    ensures r.Some? && cmd != "date" ==> r.value != ""
  {
    if cmd == "ls" then Some(LsText)
    else if cmd == "pwd" then Some("/home/user/project")
    else if cmd == "whoami" then Some("admin")
    else if cmd == "date" then Some(dateText)
    else if cmd == "ps aux" then Some(PsAuxText)
    else if cmd == "df -h" then Some(DfText)
    else if cmd == "free -h" then Some(FreeText)
    else if cmd == "uptime" then Some(UptimeText)
    else if cmd == "help" then Some(HelpText)
    else None
  }

  /** What the delayed callback does with a trimmed command. */
  datatype Resolution = ClearScreen | Emit(kind: LineKind, text: string)

  /** The body of the `setTimeout` callback in `executeCommand`. A dictionary
      entry is used only when its text is non-empty (JavaScript truthiness). */
  function Resolve(cmd: string, dateText: string): (r: Resolution)
    ensures r.ClearScreen? <==> cmd == "clear"
    ensures r.Emit? ==> r.kind != Command
    ensures r.Emit? && r.kind == Error <==>
      cmd !in ["clear", "top", "netstat"] && !(MockCommand(cmd, dateText).Some? && MockCommand(cmd, dateText).value != "")
    ensures r.Emit? && r.kind == Error ==> r.text == NotFoundPrefix + cmd
    ensures cmd == "top" ==> r == Emit(Output, TopText)
    ensures cmd == "netstat" ==> r == Emit(Output, NetstatText)
  {
    var mock := MockCommand(cmd, dateText);
    if cmd == "clear" then ClearScreen
    else if cmd == "top" then Emit(Output, TopText)
    else if cmd == "netstat" then Emit(Output, NetstatText)
    else if mock.Some? && mock.value != "" then Emit(Output, mock.value)
    else Emit(Error, NotFoundPrefix + cmd)
  }

  /** A dictionary command resolves to exactly its dictionary text, as one output line. */
  lemma ResolveDictionary(cmd: string, dateText: string)
    requires dateText != "" && MockCommand(cmd, dateText).Some?
    ensures Resolve(cmd, dateText) == Emit(Output, MockCommand(cmd, dateText).value)
  {
  }

  /** Every command the panel's `help` advertises is handled: none of them
      resolves to an error line. */
  lemma AdvertisedCommandsHandled(dateText: string)
    requires dateText != ""
    ensures forall c :: c in AdvertisedCommands ==> Resolve(c, dateText) == ClearScreen || Resolve(c, dateText).kind == Output
  {
  }

  /** The history cursor and the input box it fills. */
  datatype Nav = Nav(index: int, input: string)

  /** The cursor stays in `[-1, |history| - 1]`; -1 means "not browsing". */
  predicate InRange(history: seq<string>, index: int) {
    -1 <= index < |history|
  }

  /** ArrowUp: step to the next older entry, unless already at the oldest. */
  function Up(history: seq<string>, n: Nav): (r: Nav)
    requires InRange(history, n.index)
    ensures InRange(history, r.index)
    ensures n.index == |history| - 1 ==> r == n
  {
    if |history| > 0 && n.index < |history| - 1 then
      var index := n.index + 1;
      Nav(index, history[|history| - 1 - index])
    else n
  }

  /** ArrowDown: step to the next newer entry; from the newest, leave browsing with an empty input. */
  function Down(history: seq<string>, n: Nav): (r: Nav)
    requires InRange(history, n.index)
    ensures InRange(history, r.index)
    ensures n.index == -1 ==> r == n
    ensures n.index == 0 ==> r == Nav(-1, "")
    ensures n.index > 0 ==> r == Nav(n.index - 1, history[|history| - n.index])
  {
    if n.index > 0 then
      var index := n.index - 1;
      Nav(index, history[|history| - 1 - index])
    else if n.index == 0 then Nav(-1, "")
    else n
  }

  /** `k` ArrowUp presses in a row. */
  function Ups(history: seq<string>, n: Nav, k: nat): (r: Nav)
    requires InRange(history, n.index)
    ensures InRange(history, r.index)
    decreases k
  {
    if k == 0 then n else Ups(history, Up(history, n), k - 1)
  }

  /** While there is room, each press moves one entry older. */
  lemma {:induction false} UpsClimb(history: seq<string>, n: Nav, k: nat)
    requires InRange(history, n.index) && 1 <= k && n.index + k <= |history| - 1
    ensures Ups(history, n, k) == Nav(n.index + k, history[|history| - 1 - (n.index + k)])
    decreases k
  {
    if k > 1 {
      UpsClimb(history, Up(history, n), k - 1);
    }
  }

  /** From "not browsing", `k` presses (k <= |history|) show the k-th most recent command. */
  lemma UpsFromFresh(history: seq<string>, input: string, k: nat)
    requires 1 <= k <= |history|
    ensures Ups(history, Nav(-1, input), k) == Nav(k - 1, history[|history| - k])
  {
    UpsClimb(history, Nav(-1, input), k);
  }

  /** Pressing ArrowUp more often than there are entries stays on the oldest one. */
  lemma {:induction false} UpsSaturate(history: seq<string>, input: string, k: nat)
    requires 1 <= |history| <= k
    ensures Ups(history, Nav(-1, input), k) == Nav(|history| - 1, history[0])
    decreases k
  {
    if k == |history| {
      UpsFromFresh(history, input, k);
    } else {
      UpsFromFreshThenStay(history, input, |history|, k - |history|);
    }
  }

  lemma {:induction false} UpsFromFreshThenStay(history: seq<string>, input: string, k: nat, extra: nat)
    requires 1 <= |history| == k
    ensures Ups(history, Nav(-1, input), k + extra) == Nav(|history| - 1, history[0])
    decreases extra
  {
    if extra == 0 {
      UpsFromFresh(history, input, k);
    } else {
      UpsFromFreshThenStay(history, input, k, extra - 1);
      UpsAppend(history, Nav(-1, input), k + extra - 1);
    }
  }

  /** One more press after `k` presses. */
  lemma {:induction false} UpsAppend(history: seq<string>, n: Nav, k: nat)
    requires InRange(history, n.index)
    ensures Ups(history, n, k + 1) == Up(history, Ups(history, n, k))
    decreases k
  {
    if k > 0 {
      UpsAppend(history, Up(history, n), k - 1);
    }
  }

  /** ArrowDown undoes a moving ArrowUp: the cursor returns, and the input shows
      that entry again, or is emptied when the cursor returns to -1. */
  lemma DownUndoesUp(history: seq<string>, n: Nav)
    requires InRange(history, n.index) && n.index < |history| - 1
    ensures Down(history, Up(history, n)).index == n.index
    ensures Down(history, Up(history, n)).input == if n.index == -1 then "" else history[|history| - 1 - n.index]
  {
  }

  /** The walk-through of three commands: Up, Up, Up shows c, b, a; a fourth Up
      changes nothing; Down, Down, Down then shows b, c and the empty input. */
  lemma ThreeCommandWalk(a: string, b: string, c: string, input: string)
    ensures var h := [a, b, c];
      var u1 := Up(h, Nav(-1, input));
      var u2 := Up(h, u1);
      var u3 := Up(h, u2);
      var d1 := Down(h, u3);
      var d2 := Down(h, d1);
      && u1.input == c && u2.input == b && u3.input == a
      && Up(h, u3) == u3
      && d1.input == b && d2.input == c && Down(h, d2) == Nav(-1, "")
  {
  }

  datatype Key = Enter | ArrowUp | ArrowDown | OtherKey

  /** The `Terminal` component's state. */
  class Terminal {
    /** `new Date().toString()` taken when the module loaded (the `date` entry). */
    const dateText: string
    var lines: seq<TerminalLine>
    var currentCommand: string
    var commandHistory: seq<string>
    var historyIndex: int
    /** Trimmed commands whose delayed callback has not run yet. */
    var pending: seq<string>

    ghost predicate Valid()
      reads this
    {
      InRange(commandHistory, historyIndex) && dateText != ""
    }

    /** The component's initial state: the two welcome lines and an empty history. */
    constructor (dateText: string, firstClock: int, secondClock: int)
      requires dateText != ""
      ensures Valid() && this.dateText == dateText
      ensures lines == WelcomeLines(firstClock, secondClock)
      ensures currentCommand == "" && commandHistory == [] && historyIndex == -1 && pending == []
    {
      this.dateText := dateText;
      lines := WelcomeLines(firstClock, secondClock);
      currentCommand := "";
      commandHistory := [];
      historyIndex := -1;
      pending := [];
    }

    /** The input box's `onChange`. */
    method SetCurrentCommand(text: string)
      requires Valid()
      modifies this
      ensures Valid() && currentCommand == text
      ensures lines == old(lines) && commandHistory == old(commandHistory)
      ensures historyIndex == old(historyIndex) && pending == old(pending)
    {
      currentCommand := text;
    }

    /** `executeCommand`: blank input is ignored; otherwise the trimmed command is
        recorded, echoed and scheduled, and the input box is emptied. */
    method ExecuteCommand(command: string, now: int)
      requires Valid()
      modifies this
      ensures Valid()
      ensures var t := Trim(command);
        (if t == "" then unchanged(this)
         else
          && commandHistory == old(commandHistory) + [t]
          && historyIndex == -1
          && lines == old(lines) + [CommandLine(DecimalString(now), t, now)]
          && pending == old(pending) + [t]
          && currentCommand == "")
    {
      var trimmed := Trim(command);
      if trimmed == "" {
        return;
      }
      commandHistory := commandHistory + [trimmed];
      historyIndex := -1;
      lines := lines + [CommandLine(DecimalString(now), trimmed, now)];
      pending := pending + [trimmed];
      currentCommand := "";
    }

    /** The delayed callback of the `k`-th pending command runs. Callbacks may run
        in any order, so any pending one may be chosen. `now` is `Date.now()` then. */
    method ResolvePending(k: nat, now: int)
      requires Valid() && k < |pending|
      modifies this
      ensures Valid()
      ensures pending == old(pending[..k] + pending[k + 1..])
      ensures match Resolve(old(pending[k]), dateText)
        case ClearScreen => lines == []
        case Emit(kind, text) => lines == old(lines) + [TerminalLine(DecimalString(now + 1), kind, text, now)]
      ensures commandHistory == old(commandHistory) && historyIndex == old(historyIndex)
      ensures currentCommand == old(currentCommand)
    {
      var cmd := pending[k];
      pending := pending[..k] + pending[k + 1..];
      match Resolve(cmd, dateText)
      case ClearScreen =>
        lines := [];
      case Emit(kind, text) =>
        lines := lines + [TerminalLine(DecimalString(now + 1), kind, text, now)];
    }

    /** `handleKeyDown`: Enter submits the input box; ArrowUp and ArrowDown move
        through the history. */
    method HandleKeyDown(key: Key, now: int)
      requires Valid()
      modifies this
      ensures Valid()
      ensures key == ArrowUp ==>
        && commandHistory == old(commandHistory) && lines == old(lines) && pending == old(pending)
        && Nav(historyIndex, currentCommand)
           == Up(old(commandHistory), Nav(old(historyIndex), old(currentCommand)))
      ensures key == ArrowDown ==>
        && commandHistory == old(commandHistory) && lines == old(lines) && pending == old(pending)
        && Nav(historyIndex, currentCommand)
           == Down(old(commandHistory), Nav(old(historyIndex), old(currentCommand)))
      ensures key == Enter ==>
        var t := Trim(old(currentCommand));
        (if t == "" then unchanged(this)
         else
           && commandHistory == old(commandHistory) + [t]
           && historyIndex == -1 && currentCommand == ""
           && lines == old(lines) + [CommandLine(DecimalString(now), t, now)]
           && pending == old(pending) + [t])
      ensures key == OtherKey ==> unchanged(this)
    {
      match key
      case Enter =>
        ExecuteCommand(currentCommand, now);
      case ArrowUp =>
        var n := Up(commandHistory, Nav(historyIndex, currentCommand));
        historyIndex, currentCommand := n.index, n.input;
      case ArrowDown =>
        var n := Down(commandHistory, Nav(historyIndex, currentCommand));
        historyIndex, currentCommand := n.index, n.input;
      case OtherKey =>
    }

    /** The "Очистить" button: empties the scrollback and nothing else. */
    method ClearScrollback()
      requires Valid()
      modifies this
      ensures Valid() && lines == []
      ensures commandHistory == old(commandHistory) && historyIndex == old(historyIndex)
      ensures currentCommand == old(currentCommand) && pending == old(pending)
    {
      lines := [];
    }
  }
}
