/** The terminal endpoint (src/terminal.rs): a shared list of scrollback lines
    that `exec_command` appends to and `clear` empties. */
module TerminalServer {
  import opened Wrappers
  import opened Text
  import opened TerminalLines

  /** What the endpoint does with a trimmed command: empty the scrollback, or print one line. */
  datatype Dispatch = ClearAll | Reply(kind: LineKind, text: string)

  const ServerHelpText: string := ServerHelpTitle + ServerHelpCommands
  const ServerHelpTitle: string := "Доступные команды: "
  const ServerHelpCommands: string := "ls, pwd, whoami, date, clear, help"

  /** The `match` on the trimmed command in `exec_command`. */
  function DispatchCommand(cmd: string): (d: Dispatch)
    ensures d.ClearAll? <==> cmd == "clear"
    ensures d.Reply? ==> d.kind != Command
    ensures d.Reply? && d.kind == Output <==> cmd in ["pwd", "whoami", "help"]
    ensures d.Reply? && d.kind == Error ==> d.text == NotFoundPrefix + cmd
    ensures cmd == "pwd" ==> d == Reply(Output, "/home/user/project")
    ensures cmd == "whoami" ==> d == Reply(Output, "admin")
    ensures cmd == "help" ==> d == Reply(Output, ServerHelpText)
  {
    if cmd == "pwd" then Reply(Output, "/home/user/project")
    else if cmd == "whoami" then Reply(Output, "admin")
    else if cmd == "help" then Reply(Output, ServerHelpText)
    else if cmd == "clear" then ClearAll
    else Reply(Error, NotFoundPrefix + cmd)
  }

  /** The server's `help` text advertises `ls`. */
  lemma HelpListsLs()
    ensures Contains(ServerHelpText, "ls")
  {
    ContainsAt(ServerHelpCommands, "ls", 0);
    ContainsAfter(ServerHelpTitle, ServerHelpCommands, "ls");
  }

  /** The server's `help` text advertises `date`. */
  lemma HelpListsDate()
    ensures Contains(ServerHelpText, "date")
  {
    assert ServerHelpCommands[17..21] == "date";
    ContainsAt(ServerHelpCommands, "date", 17);
    ContainsAfter(ServerHelpTitle, ServerHelpCommands, "date");
  }

  /** The server's `help` text advertises `ls` and `date`, yet the endpoint
      answers both with a "command not found" error line. */
  lemma HelpListsUnhandledCommands()
    ensures Contains(ServerHelpText, "ls") && Contains(ServerHelpText, "date")
    ensures DispatchCommand("ls") == Reply(Error, NotFoundPrefix + "ls")
    ensures DispatchCommand("date") == Reply(Error, NotFoundPrefix + "date")
  {
    HelpListsLs();
    HelpListsDate();
  }

  /** `TerminalStore`: the scrollback behind the endpoint's lock. */
  class TerminalStore {
    var lines: seq<TerminalLine>

    /** `TerminalStore::new_welcome`, given its two clock readings. */
    constructor NewWelcome(firstClock: int, secondClock: int)
      ensures lines == WelcomeLines(firstClock, secondClock)
    {
      lines := WelcomeLines(firstClock, secondClock);
    }

    /** `get_history`: a copy of the scrollback; nothing changes. */
    method GetHistory() returns (r: seq<TerminalLine>)
      ensures r == lines
    {
      r := lines;
    }

    /** `exec_command`: echo the untrimmed request, dispatch on the trimmed one.
        `now` is the clock reading for the echo, `outClock` the one for the reply. */
    method ExecCommand(command: string, now: int, outClock: int) returns (status: Status)
      modifies this
      ensures var echo := CommandLine(DecimalString(now), command, now);
        match DispatchCommand(Trim(command))
        case ClearAll => lines == [] && status == NoContent
        case Reply(kind, text) =>
          && lines == old(lines) + [echo, TerminalLine(DecimalString(outClock), kind, text, outClock)]
          && status == Ok
      ensures status == Ok ==> |lines| == |old(lines)| + 2 && lines[..|old(lines)|] == old(lines)
    {
      var echo := CommandLine(DecimalString(now), command, now);
      lines := lines + [echo];
      match DispatchCommand(Trim(command))
      case ClearAll =>
        lines := [];
        status := NoContent;
      case Reply(kind, text) =>
        var reply := TerminalLine(DecimalString(outClock), kind, text, outClock);
        lines := lines + [reply];
        assert lines == old(lines) + [echo, reply];
        assert lines[..|old(lines)|] == old(lines);
        status := Ok;
    }
  }
}
