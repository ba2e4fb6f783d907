/** Runs of the logger that callers can reason about from the contracts of
    `Logger` alone: what ends up in the files, on standard output and in
    the notifier's requests. */
module LoggerScenarios {
  import opened Base
  import opened LogFormat
  import opened Env
  import opened Telegram
  import opened AsyncLogger

  /** INFO a, WARNING b and ERROR c on one day: the day's file and standard
      output hold the three lines in that order with their tags. */
  method OneDay(day: string, a: string, b: string, c: string, escape: string -> string)
    returns (file: seq<string>, out: seq<string>)
    ensures file == out == [FormatLine(day, Info, a), FormatLine(day, Warning, b), FormatLine(day, Error, c)]
  {
    var logger := new Logger(None, map[], day, true, escape);
    logger.Log(Info, a, day, true);
    logger.Log(Warning, b, day, true);
    logger.Log(Error, c, day, true);
    var finished := logger.ProcessLogs();
    file := logger.files[LogFileName(day)];
    out := logger.stdout;
  }

  /** A `.env` that assigns the token and then the chat id yields both. */
  lemma ReadTwoCredentials(env: seq<string>, token: string, id: string)
    requires env == [BotTokenKey + "=" + token, ChatIdKey + "=" + id]
    ensures LoadedCredentials(Some(env)) == Credentials(token, id)
  {
    var c0 := Credentials("", "");
    ApplyAssignment(c0, BotTokenKey, token);
    ApplyAssignment(c0.(botToken := token), ChatIdKey, id);
    assert env[..1][..0] == [];
    assert EnvFold(c0, env[..1]) == c0.(botToken := token);
  }

  /** The same three records with both credentials set in `.env`: exactly
      one notification is requested, for c. */
  method OneDayNotifies(day: string, a: string, b: string, c: string, token: string, id: string, escape: string -> string)
    returns (sent: seq<string>)
    requires token != "" && id != ""
    ensures sent == [SendMessageUrl(Credentials(token, id), c, escape)]
  {
    var env := [BotTokenKey + "=" + token, ChatIdKey + "=" + id];
    ReadTwoCredentials(env, token, id);
    var logger := new Logger(Some(env), map[], day, true, escape);
    logger.Log(Info, a, day, true);
    logger.Log(Warning, b, day, true);
    logger.Log(Error, c, day, true);
    sent := logger.requests;
  }

  /** The day changes between two `log` calls while the worker is behind:
      the rotation happens in `log`, so the first day's line, drained after
      it, lands in the second day's file and the first day's file stays
      empty. */
  method RotationWhileBehind(day1: string, day2: string, a: string, b: string, escape: string -> string)
    returns (first: seq<string>, second: seq<string>)
    requires day1 != day2
    ensures first == []
    ensures second == [FormatLine(day1, Info, a), FormatLine(day2, Info, b)]
  {
    var logger := new Logger(None, map[], day1, true, escape);
    logger.Log(Info, a, day1, true);
    logger.Log(Info, b, day2, true);
    var finished := logger.ProcessLogs();
    LogFileNameInjective(day1, day2);
    first := logger.files[LogFileName(day1)];
    second := logger.files[LogFileName(day2)];
  }

  /** The same two calls with the worker keeping up: each line lands in its
      own day's file. */
  method RotationCaughtUp(day1: string, day2: string, a: string, b: string, escape: string -> string)
    returns (first: seq<string>, second: seq<string>)
    requires day1 != day2
    ensures first == [FormatLine(day1, Info, a)]
    ensures second == [FormatLine(day2, Info, b)]
  {
    var f1, f2 := LogFileName(day1), LogFileName(day2);
    LogFileNameInjective(day1, day2);
    var logger := new Logger(None, map[], day1, true, escape);
    logger.Log(Info, a, day1, true);
    var finished := logger.ProcessLogs();
    assert logger.files[f1] == [FormatLine(day1, Info, a)];
    logger.Log(Info, b, day2, true);
    assert logger.openFile == Some(f2) && logger.files[f1] == [FormatLine(day1, Info, a)];
    finished := logger.ProcessLogs();
    first := logger.files[f1];
    second := logger.files[f2];
  }

  /** Records a and b are queued on day1 and the worker has written a:
      b is still queued and the day's file holds a alone. */
  method OneOfTwoWritten(day1: string, a: string, b: string, escape: string -> string)
    returns (logger: Logger)
    ensures fresh(logger) && logger.Valid() && logger.running && !logger.workerDone
    ensures logger.currentDate == day1 && logger.openFile == Some(LogFileName(day1))
    ensures logger.queue == [FormatLine(day1, Info, b)]
    ensures logger.files.Keys == {LogFileName(day1)}
    ensures logger.files[LogFileName(day1)] == [FormatLine(day1, Info, a)]
  {
    logger := new Logger(None, map[], day1, true, escape);
    logger.Log(Info, a, day1, true);
    logger.Log(Info, b, day1, true);
    assert logger.queue == [FormatLine(day1, Info, a), FormatLine(day1, Info, b)];
    logger.WriteNext();
  }

  /** The day changes while the worker is part-way through the queue: the
      worker has written a, a producer switches the file and queues c, and
      the worker then writes b and c. The first day's file gets a only; b,
      a record of the first day, lands in the second day's file. */
  method RotationMidDrain(day1: string, day2: string, a: string, b: string, c: string, escape: string -> string)
    returns (first: seq<string>, second: seq<string>)
    requires day1 != day2
    ensures first == [FormatLine(day1, Info, a)]
    ensures second == [FormatLine(day1, Info, b), FormatLine(day2, Info, c)]
  {
    LogFileNameInjective(day1, day2);
    var logger := OneOfTwoWritten(day1, a, b, escape);
    logger.Log(Info, c, day2, true);
    var finished := logger.ProcessLogs();
    first := logger.files[LogFileName(day1)];
    second := logger.files[LogFileName(day2)];
  }

  /** Records queued before `stop()` are all written by the time it returns;
      a second `stop()` writes nothing more; a record logged after `stop()`
      stays queued and is never written. */
  method StopDrains(day: string, a: string, b: string, c: string, escape: string -> string)
    returns (afterStop: seq<string>, afterSecondStop: seq<string>, pending: seq<string>)
    ensures afterStop == [FormatLine(day, Info, a), FormatLine(day, Info, b)]
    ensures afterSecondStop == afterStop
    ensures pending == [FormatLine(day, Info, c)]
  {
    var name := LogFileName(day);
    var logger := new Logger(None, map[], day, true, escape);
    logger.Log(Info, a, day, true);
    logger.Log(Info, b, day, true);
    assert logger.queue == [FormatLine(day, Info, a), FormatLine(day, Info, b)];
    logger.Stop();
    afterStop := logger.files[name];
    logger.Stop();
    afterSecondStop := logger.files[name];
    logger.Log(Info, c, day, true);
    pending := logger.queue;
  }

  /** Without `.env` an ERROR record requests nothing, and when the day's
      file could not be opened it still reaches standard output. */
  method NoCredentialsNoFile(day: string, message: string, escape: string -> string)
    returns (out: seq<string>, sent: seq<string>, files: Files)
    ensures out == [FormatLine(day, Error, message)]
    ensures sent == []
    ensures files == map[]
  {
    var logger := new Logger(None, map[], day, false, escape);
    logger.Log(Error, message, day, true);
    var finished := logger.ProcessLogs();
    out := logger.stdout;
    sent := logger.requests;
    files := logger.files;
  }
}
