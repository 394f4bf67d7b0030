/** The log line formatter: the colour of each level, which message and which
    source link a line shows, and how the caller string is split. */
module Formatter {
  import Strs

  /** The logger's levels, most severe first. */
  datatype Level = Panic | Fatal | Error | Warn | Info | Debug | Trace
  {
    /** The level's name as the logging library prints it. */
    function Name(): string
    {
      match this
      case Panic => "panic"
      case Fatal => "fatal"
      case Error => "error"
      case Warn => "warning"
      case Info => "info"
      case Debug => "debug"
      case Trace => "trace"
    }
  }

  /** A value of an entry's field map: a string, or any other value, kept
      only by a description of it. */
  datatype Value = StrValue(text: string) | OtherValue(desc: string)

  /** A log entry: its level, its message and its fields. */
  datatype Entry = Entry(level: Level, message: string, data: map<string, Value>)

  const ColorError: string := "\U{1B}[38;2;204;0;0m"
  const ColorInfo: string := "\U{1B}[38;2;0;153;204m"
  const ColorSuccess: string := "\U{1B}[38;2;0;126;51m"
  const ColorWarn: string := "\U{1B}[38;2;255;136;0m"
  const ColorReset: string := "\U{1B}[0m"

  /** What `parseCallerInfo` answers for a caller it cannot split. */
  const UnknownFile: string := "unknown"
  const UnknownLine: string := "0"

  /** Error is red, Warn orange, Info blue, Debug and Trace green; Panic and
      Fatal get the reset code. */
  function LevelColor(level: Level): string
  {
    match level
    case Error => ColorError
    case Warn => ColorWarn
    case Info => ColorInfo
    case Debug => ColorSuccess
    case Trace => ColorSuccess
    case _ => ColorReset
  }

  /** Two levels share a colour exactly when both are Debug or Trace, or both
      are Panic or Fatal. */
  lemma LevelColorsDistinct(a: Level, b: Level)
    ensures LevelColor(a) == LevelColor(b) <==>
      a == b || (a in {Debug, Trace} && b in {Debug, Trace}) || (a in {Panic, Fatal} && b in {Panic, Fatal})
  {
  }

  /** Splits a "file:line" caller at its colon; any caller without exactly one
      colon yields ("unknown", "0"). */
  function ParseCallerInfo(caller: string): (string, string)
  {
    var parts := Strs.Split(caller, ':');
    if |parts| != 2 then (UnknownFile, UnknownLine) else (parts[0], parts[1])
  }

  /** Splitting at the colon inverts gluing with one: for a file and a line
      without colons the pieces come back. */
  lemma {:induction false} ParseCallerRoundTrip(file: string, line: string)
    requires ':' !in file && ':' !in line
    ensures ParseCallerInfo(file + ":" + line) == (file, line)
  {
    assert Strs.Join([file, line], ':') == file + ":" + line by {
      assert Strs.Join([file, line][1..], ':') == line;
    }
    Strs.SplitJoinInverse([file, line], ':');
  }

  /** And every answer other than the fallback comes from such a caller. */
  lemma {:induction false} ParseCallerSound(caller: string)
    requires ParseCallerInfo(caller) != (UnknownFile, UnknownLine)
    ensures var (file, line) := ParseCallerInfo(caller);
      ':' !in file && ':' !in line && caller == file + ":" + line
  {
    var parts := Strs.Split(caller, ':');
    Strs.SplitJoin(caller, ':');
    Strs.SplitPiecesFree(caller, ':');
    assert Strs.Join(parts, ':') == parts[0] + [':'] + Strs.Join(parts[1..], ':');
    assert Strs.Join(parts[1..], ':') == parts[1];
  }

  /** A caller without a colon is not understood. */
  lemma {:induction false} NoColonUnknown(caller: string)
    requires ':' !in caller
    ensures ParseCallerInfo(caller) == (UnknownFile, UnknownLine)
  {
    assert Strs.IndexOf(caller, ':') == -1;
  }

  /** Nor is a caller with two colons or more, written from its first two. */
  lemma {:induction false} TwoColonsUnknown(a: string, b: string, rest: string)
    requires ':' !in a && ':' !in b
    ensures ParseCallerInfo(a + ":" + b + ":" + rest) == (UnknownFile, UnknownLine)
  {
    var tail := b + [':'] + rest;
    assert a + ":" + b + ":" + rest == a + [':'] + tail;
    Strs.SplitCons(a, tail, ':');
    Strs.SplitCons(b, rest, ':');
  }

  /** The message a line shows: the "message" field when it holds a string,
      otherwise the entry's own message. */
  function MessageOf(entry: Entry): (m: string)
    ensures "message" in entry.data && entry.data["message"].StrValue? ==> m == entry.data["message"].text
    ensures !("message" in entry.data && entry.data["message"].StrValue?) ==> m == entry.message
  {
    if "message" in entry.data && entry.data["message"].StrValue? then entry.data["message"].text
    else entry.message
  }

  /** The source link a line shows: "file://" and the parsed caller, when the
      "caller" field holds a string whose file is known; otherwise "". */
  function FileLink(entry: Entry): string
  {
    if "caller" in entry.data && entry.data["caller"].StrValue? then
      var (file, line) := ParseCallerInfo(entry.data["caller"].text);
      if file != UnknownFile then "file://" + file + ":" + line else ""
    else ""
  }

  /** There is a link exactly when the caller is a string whose parsed file is
      not "unknown", and then it names that file and line. */
  lemma FileLinkIff(entry: Entry)
    ensures FileLink(entry) != "" <==>
      "caller" in entry.data && entry.data["caller"].StrValue?
      && ParseCallerInfo(entry.data["caller"].text).0 != UnknownFile
    ensures FileLink(entry) != "" ==>
      var (file, line) := ParseCallerInfo(entry.data["caller"].text);
      FileLink(entry) == "file://" + file + ":" + line
  {
  }

  /** `Format`: colour, the upper-cased level in brackets, the message, the
      link in parentheses when there is one, the reset code and a newline. */
  function Format(entry: Entry): string
  {
    var link := FileLink(entry);
    LevelColor(entry.level) + "[" + Strs.ToUpper(entry.level.Name()) + "] " + MessageOf(entry)
      + (if link != "" then " (" + link + ")" else "") + ColorReset + "\n"
  }

  /** Every line starts with its level's colour and ends by resetting it. */
  lemma FormatFrames(entry: Entry)
    ensures LevelColor(entry.level) <= Format(entry)
    ensures var f := Format(entry);
      |f| >= |ColorReset| + 1 && f[|f| - |ColorReset| - 1..] == ColorReset + "\n"
  {
    var link := FileLink(entry);
    var head := LevelColor(entry.level) + "[" + Strs.ToUpper(entry.level.Name()) + "] " + MessageOf(entry)
      + (if link != "" then " (" + link + ")" else "");
    assert Format(entry) == head + (ColorReset + "\n");
  }

  /** A warning line is tagged WARNING, the library's name for the level. */
  lemma WarnTag()
    ensures Strs.ToUpper(Warn.Name()) == "WARNING"
  {
  }
}
