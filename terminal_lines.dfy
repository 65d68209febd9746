/** The scrollback line record that the terminal panel and the terminal
    endpoint share, with the texts both of them print. */
module TerminalLines {

  /** `type` in the panel, `kind` in the endpoint. */
  datatype LineKind = Command | Output | Error

  /** One line of scrollback; the timestamp is a clock reading in milliseconds. */
  datatype TerminalLine = TerminalLine(id: string, kind: LineKind, content: string, timestamp: int)

  const WelcomeText: string := "Добро пожаловать в терминал панели управления v2.1.0"
  const HintText: string := "Введите \"help\" для получения списка доступных команд."

  /** Prefix of the single error line printed for an unknown command. */
  const NotFoundPrefix: string := "Команда не найдена: "

  /** The scrollback both sides start with: two output lines with ids "1" and "2". */
  function WelcomeLines(firstClock: int, secondClock: int): (r: seq<TerminalLine>)
    ensures |r| == 2 && r[0].id == "1" && r[1].id == "2"
    ensures forall i :: 0 <= i < |r| ==> r[i].kind == Output
    ensures r[0].content == WelcomeText && r[1].content == HintText
  {
    [TerminalLine("1", Output, WelcomeText, firstClock), TerminalLine("2", Output, HintText, secondClock)]
  }

  /** The echo of a submitted command: `"$ "` followed by the command text. */
  function CommandLine(id: string, text: string, clock: int): (r: TerminalLine)
    ensures r.kind == Command && |r.content| == |text| + 2
    ensures r.content[..2] == "$ " && r.content[2..] == text
  {
    TerminalLine(id, Command, "$ " + text, clock)
  }
}
