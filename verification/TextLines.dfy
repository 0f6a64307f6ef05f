/** Splitting a text into lines, as `str::lines` does. */
module TextLines {
  /** The text up to and with each line feed; a rest without one is a line too. */
  function Lines(text: string): seq<string> {
    LinesFrom("", text)
  }

  /** `line` is what was read of the current line. */
  function LinesFrom(line: string, text: string): seq<string>
    decreases |text|
  {
    if text == "" then (if line == "" then [] else [line])
    else if text[0] == '\n' then [Chomped(line)] + LinesFrom("", text[1..])
    else LinesFrom(line + [text[0]], text[1..])
  }

  /** A carriage return before the line feed belongs to the line end. */
  function Chomped(line: string): string {
    if line != "" && line[|line| - 1] == '\r' then line[..|line| - 1] else line
  }
}
