/** What `Logger::log` writes: the level tag, the record line, and the
    name of the file a day's records go to (`Logger::openLogFile`). */
module LogFormat {
  import opened Base

  /** The three severities of `LogLevel`. */
  datatype LogLevel = Info | Warning | Error

  /** The tag a record of this severity carries: one of three fixed words,
      none of which holds the `]` that closes it in a record line. */
  function LevelName(level: LogLevel): (r: string)
    ensures r == "INFO" || r == "WARNING" || r == "ERROR"
    ensures ']' !in r
  {
    match level
    case Info => "INFO"
    case Warning => "WARNING"
    case Error => "ERROR"
  }

  /** The severity a tag stands for; None for any other text. */
  function LevelOfName(name: string): (r: Option<LogLevel>)
    ensures r.Some? ==> LevelName(r.value) == name
  {
    if name == "INFO" then Some(Info)
    else if name == "WARNING" then Some(Warning)
    else if name == "ERROR" then Some(Error)
    else None
  }

  /** Every severity has its own tag, and its tag leads back to it. */
  lemma LevelNameRoundTrip(level: LogLevel)
    ensures LevelOfName(LevelName(level)) == Some(level)
  {
  }

  /** One record, as `log` formats it: `[date] [LEVEL] message` and a
      newline (`std::endl`). */
  function FormatLine(date: string, level: LogLevel, message: string): (r: string)
    ensures |r| == |date| + |LevelName(level)| + |message| + 7
    ensures r[..|date| + 4] == "[" + date + "] ["
    ensures r[|date| + 4..|date| + 4 + |LevelName(level)|] == LevelName(level)
    ensures r[|date| + 4 + |LevelName(level)|..] == "] " + message + "\n"
  {
    var r := "[" + date + "] [" + LevelName(level) + "] " + message + "\n";
    assert r == ("[" + date + "] [") + (LevelName(level) + ("] " + message + "\n"));
    r
  }

  /** A record read back from a formatted line. */
  datatype Entry = Entry(date: string, level: LogLevel, message: string)

  /** `FormatLine`, grouped from the right: the form the parser peels. */
  lemma FormatLineShape(date: string, level: LogLevel, message: string)
    ensures FormatLine(date, level, message)
         == "[" + (date + ("] [" + (LevelName(level) + ("] " + (message + "\n")))))
  {
  }

  /** The severity tag at the front of `s`, and what follows it. */
  function ParseLevel(s: string): (r: Option<(LogLevel, string)>)
    ensures r.Some? ==> s == LevelName(r.value.0) + r.value.1
  {
    match StripPrefix("INFO", s)
    case Some(rest) => Some((Info, rest))
    case None =>
      match StripPrefix("WARNING", s)
      case Some(rest) => Some((Warning, rest))
      case None =>
        match StripPrefix("ERROR", s)
        case Some(rest) => Some((Error, rest))
        case None => None
  }

  /** Splits `s` at its first `]`, which must open `] [`: the date before it
      and the text after the `] [`. */
  function SplitDate(s: string): (r: Option<(string, string)>)
    ensures r.Some? ==> ']' !in r.value.0 && s == r.value.0 + ("] [" + r.value.1)
  {
    match IndexOf(s, ']')
    case None => None
    case Some(p) =>
      match StripPrefix("] [", s[p..])
      case None => None
      case Some(rest) =>
        assert s == s[..p] + s[p..];
        Some((s[..p], rest))
  }

  /** The part of a line after the date: the tag, `] `, the message and the
      closing newline. */
  function ParseTail(s: string): (r: Option<(LogLevel, string)>)
    ensures r.Some? ==> s == LevelName(r.value.0) + ("] " + (r.value.1 + "\n"))
  {
    match ParseLevel(s)
    case None => None
    case Some((level, afterLevel)) =>
      match StripPrefix("] ", afterLevel)
      case None => None
      case Some(body) =>
        if |body| > 0 && body[|body| - 1] == '\n' then
          assert body == body[..|body| - 1] + "\n";
          Some((level, body[..|body| - 1]))
        else None
  }

  /** Reads a line written by `FormatLine`; None for any line of another
      shape. The date ends at the first `]`. Whatever it accepts, it
      accepts as exactly the line `FormatLine` would write. */
  function ParseLine(line: string): (r: Option<Entry>)
    ensures r.Some? ==> ']' !in r.value.date
    ensures r.Some? ==> FormatLine(r.value.date, r.value.level, r.value.message) == line
  {
    match StripPrefix("[", line)
    case None => None
    case Some(afterOpen) =>
      match SplitDate(afterOpen)
      case None => None
      case Some((date, rest)) =>
        match ParseTail(rest)
        case None => None
        case Some((level, message)) =>
          FormatLineShape(date, level, message);
          Some(Entry(date, level, message))
  }

  lemma ParseLevelOf(level: LogLevel, rest: string)
    ensures ParseLevel(LevelName(level) + rest) == Some((level, rest))
  {
    var s := LevelName(level) + rest;
    StripPrefixOf(LevelName(level), rest);
    match level
    case Info =>
    case Warning =>
      assert s[0] == 'W';
    case Error =>
      assert s[0] == 'E';
  }

  lemma SplitDateOf(date: string, rest: string)
    requires ']' !in date
    ensures SplitDate(date + ("] [" + rest)) == Some((date, rest))
  {
    var s := date + ("] [" + rest);
    assert s[..|date|] == date;
    IndexOfAt(s, ']', |date|);
    assert s[|date|..] == "] [" + rest;
    StripPrefixOf("] [", rest);
  }

  lemma ParseTailOf(level: LogLevel, message: string)
    ensures ParseTail(LevelName(level) + ("] " + (message + "\n"))) == Some((level, message))
  {
    ParseLevelOf(level, "] " + (message + "\n"));
    StripPrefixOf("] ", message + "\n");
    assert (message + "\n")[..|message|] == message;
  }

  /** Every line the logger writes reads back as the record it was made
      from, provided the date holds no `]` (a `%Y-%m-%d` date never does). */
  lemma ParseFormatLine(date: string, level: LogLevel, message: string)
    requires ']' !in date
    ensures ParseLine(FormatLine(date, level, message)) == Some(Entry(date, level, message))
  {
    FormatLineShape(date, level, message);
    var tail := LevelName(level) + ("] " + (message + "\n"));
    StripPrefixOf("[", date + ("] [" + tail));
    SplitDateOf(date, tail);
    ParseTailOf(level, message);
  }

  /** Two records give the same line only when they are the same record. */
  lemma FormatLineInjective(d1: string, l1: LogLevel, m1: string, d2: string, l2: LogLevel, m2: string)
    requires ']' !in d1 && ']' !in d2
    ensures FormatLine(d1, l1, m1) == FormatLine(d2, l2, m2) <==> d1 == d2 && l1 == l2 && m1 == m2
  {
    ParseFormatLine(d1, l1, m1);
    ParseFormatLine(d2, l2, m2);
  }

  /** The shape `strftime` gives a day key with the format `%Y-%m-%d`. */
  predicate IsDateKey(d: string) {
    |d| == 10 &&
    forall i :: 0 <= i < 10 ==> if i == 4 || i == 7 then d[i] == '-' else '0' <= d[i] <= '9'
  }

  lemma DateKeyHasNoBracket(d: string)
    requires IsDateKey(d)
    ensures ']' !in d
  {
  }

  /** The directory all log files live in (`_LOG_DIRECTORY`). */
  const LogDirectory := "logs"

  /** The file a day's records go to: `logs/<date>.log`. */
  function LogFileName(date: string): (r: string)
    ensures |r| == |LogDirectory| + |date| + 5
    ensures r[..|LogDirectory| + 1] == LogDirectory + "/"
    ensures r[|LogDirectory| + 1..|r| - 4] == date
    ensures r[|r| - 4..] == ".log"
  {
    var r := LogDirectory + "/" + date + ".log";
    assert r == (LogDirectory + "/") + (date + ".log");
    r
  }

  /** The day a log file name stands for; None for a name of another shape. */
  function DateOfLogFile(name: string): (r: Option<string>)
    ensures r.Some? ==> LogFileName(r.value) == name
  {
    match StripPrefix(LogDirectory + "/", name)
    case None => None
    case Some(rest) =>
      if |rest| >= 4 && rest[|rest| - 4..] == ".log" then
        var date := rest[..|rest| - 4];
        assert rest == date + ".log";
        Some(date)
      else None
  }

  /** Every day has its own file, and the file name gives the day back. */
  lemma DateOfLogFileName(date: string)
    ensures DateOfLogFile(LogFileName(date)) == Some(date)
  {
  }

  /** Records of different days never share a file. */
  lemma LogFileNameInjective(d1: string, d2: string)
    ensures LogFileName(d1) == LogFileName(d2) <==> d1 == d2
  {
  }
}
