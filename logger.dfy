/** `Logger` (Logger.cpp) as a sequential state machine. The caller threads
    and the background worker become explicit steps: `Log` is one call of
    `log()` by a producer, `WriteNext` is one record written by the worker
    (which holds no lock while it writes, so producers may run between two
    of them), `ProcessLogs` is one turn of the worker (until it would wait
    on the condition variable, or until it ends), `Stop` is `stop()`, which
    runs the worker to its end when it joins it.

    What the real logger gets from its surroundings comes in as
    parameters: the day key `getCurrentDate()` would read from the clock,
    whether `ofstream::open` succeeds, the lines of `.env` (None when the
    file is missing), the files already on disk, and the `curl_easy_escape`
    encoding. The files under `logs/` are a map from name to lines, standard
    output is the sequence of chunks written to it, and the notifier's
    network calls are the sequence of URLs it requested. */
module AsyncLogger {
  import opened Base
  import opened LogFormat
  import opened Env
  import opened Telegram

  /** File contents by file name, each file a sequence of written lines. */
  type Files = map<string, seq<string>>

  /** The files after `ofstream::open(name, std::ios::app)` succeeds: an
      existing file keeps its lines, a missing one is created empty. */
  function OpenForAppend(files: Files, name: string): (r: Files)
    ensures r.Keys == files.Keys + {name}
    ensures name in files ==> r == files
    ensures name !in files ==> r[name] == []
    ensures forall f :: f in files ==> r[f] == files[f]
  {
    if name in files then files else files[name := []]
  }

  /** The files after the worker wrote `line` to the open file, if any:
      the line goes at the end of that file, and no other file changes. */
  function WriteLine(files: Files, target: Option<string>, line: string): (r: Files)
    requires target.Some? ==> target.value in files
    ensures r.Keys == files.Keys
    ensures target.None? ==> r == files
    ensures target.Some? ==> r[target.value] == files[target.value] + [line]
    ensures forall f :: f in files && Some(f) != target ==> r[f] == files[f]
  {
    match target
    case None => files
    case Some(name) => files[name := files[name] + [line]]
  }

  /** The files after the worker wrote `lines` one at a time, in order. */
  function WriteLines(files: Files, target: Option<string>, lines: seq<string>): (r: Files)
    requires target.Some? ==> target.value in files
    ensures r.Keys == files.Keys
    decreases |lines|
  {
    if lines == [] then files
    else WriteLine(WriteLines(files, target, lines[..|lines| - 1]), target, lines[|lines| - 1])
  }

  /** `WriteLines` unfolded once at its end: the step `Drain`'s loop takes. */
  lemma WriteLinesSnoc(files: Files, target: Option<string>, lines: seq<string>, line: string)
    requires target.Some? ==> target.value in files
    ensures WriteLines(files, target, lines + [line]) == WriteLine(WriteLines(files, target, lines), target, line)
  {
    assert (lines + [line])[..|lines|] == lines;
  }

  /** Writing lines one at a time appends all of them, in order, to the end
      of the open file and changes no other file; with no file open it
      changes nothing. */
  lemma {:induction false} WriteLinesAppends(files: Files, target: Option<string>, lines: seq<string>)
    requires target.Some? ==> target.value in files
    ensures target.None? ==> WriteLines(files, target, lines) == files
    ensures target.Some? ==>
      WriteLines(files, target, lines) == files[target.value := files[target.value] + lines]
    decreases |lines|
  {
    if lines != [] {
      var init := lines[..|lines| - 1];
      var last := lines[|lines| - 1];
      var before := WriteLines(files, target, init);
      assert WriteLines(files, target, lines) == WriteLine(before, target, last);
      WriteLinesAppends(files, target, init);
      if target.Some? {
        var name := target.value;
        assert before == files[name := files[name] + init];
        assert init + [last] == lines;
        assert WriteLine(before, target, last) == before[name := (files[name] + init) + [last]];
        assert (files[name] + init) + [last] == files[name] + lines;
        UpdateTwice(files, name, files[name] + init, files[name] + lines);
      }
    } else if target.Some? {
      assert files[target.value] + lines == files[target.value];
    }
  }

  /** Helper: a second update of the same key overrides the first. */
  lemma UpdateTwice(m: Files, k: string, a: seq<string>, b: seq<string>)
    ensures m[k := a][k := b] == m[k := b]
  {
  }

  class Logger {
    /** `_logQueue`: formatted lines waiting for the worker, oldest first. */
    var queue: seq<string>
    /** `_currentDate`: the day key the open file belongs to. */
    var currentDate: string
    /** `_logFile`: the name of the file it has open, None when closed. */
    var openFile: Option<string>
    /** `_running`. */
    var running: bool
    /** The contents of the log files. */
    var files: Files
    /** What was written to `std::cout`, one chunk per record. */
    var stdout: seq<string>
    /** `_logThread.joinable()`: the worker has not been joined yet. */
    var joinable: bool
    /** `processLogs` has returned. */
    var workerDone: bool
    /** `_TELEGRAM_BOT_TOKEN` and `_TELEGRAM_CHAT_ID`. */
    var botToken: string
    var chatId: string
    /** The `sendMessage` URLs the notifier requested, in order. */
    var requests: seq<string>
    /** `curl_easy_escape`. */
    const escape: string -> string

    /** An open file is always the current day's file; the worker is joined
        only after it ended, and ends only once `_running` is cleared. */
    ghost predicate Valid()
      reads this
      ensures Valid() && openFile.Some? ==> DateOfLogFile(openFile.value) == Some(currentDate)
    {
      DateOfLogFileName(currentDate);
      && (openFile.Some? ==> openFile.value == LogFileName(currentDate) && openFile.value in files)
      && (!joinable ==> workerDone)
      && (workerDone ==> !running)
    }

    function Creds(): Credentials
      reads this
    {
      Credentials(botToken, chatId)
    }

    /** `Logger()`: load the credentials, take the day key, open that
        day's file, start the worker. */
    constructor (env: Option<seq<string>>, disk: Files, date: string, openOk: bool, escape: string -> string)
      ensures Valid()
      ensures Creds() == LoadedCredentials(env)
      ensures currentDate == date
      ensures openFile == (if openOk then Some(LogFileName(date)) else None)
      ensures files == (if openOk then OpenForAppend(disk, LogFileName(date)) else disk)
      ensures queue == [] && stdout == [] && requests == []
      ensures running && joinable && !workerDone
      ensures this.escape == escape
    {
      this.escape := escape;
      running := true;
      queue, stdout, requests := [], [], [];
      botToken, chatId := "", "";
      files := disk;
      currentDate := "";
      openFile := None;
      joinable, workerDone := false, false;
      new;
      LoadEnv(env);
      currentDate := date;
      OpenLogFile(openOk);
      joinable := true;
    }

    /** `loadEnv()`: a missing `.env` leaves the credentials as they are;
        otherwise each line is applied in order. */
    method LoadEnv(env: Option<seq<string>>)
      modifies this`botToken, this`chatId
      ensures env.None? ==> Creds() == old(Creds())
      ensures env.Some? ==> Creds() == EnvFold(old(Creds()), env.value)
    {
      if env.None? {
        return;
      }
      var lines := env.value;
      var i := 0;
      while i < |lines|
        invariant 0 <= i <= |lines|
        invariant Creds() == EnvFold(old(Creds()), lines[..i])
      {
        var line := lines[i];
        match IndexOf(line, '=') {
          case Some(pos) =>
            var key := line[..pos];
            var value := line[pos + 1..];
            if key == BotTokenKey {
              botToken := value;
            } else if key == ChatIdKey {
              chatId := value;
            }
          case None =>
        }
        assert lines[..i + 1][..i] == lines[..i];
        i := i + 1;
      }
      assert lines[..i] == lines;
    }

    /** `openLogFile()`: open `logs/<currentDate>.log` for appending; when
        the open fails no file is open. */
    method OpenLogFile(ok: bool)
      requires openFile.None?
      modifies this`openFile, this`files
      ensures openFile == if ok then Some(LogFileName(currentDate)) else None
      ensures files == if ok then OpenForAppend(old(files), LogFileName(currentDate)) else old(files)
    {
      var name := LogFileName(currentDate);
      if ok {
        files := OpenForAppend(files, name);
        openFile := Some(name);
      }
    }

    /** `sendToTelegram(message)`: no request when a credential is empty,
        otherwise one request for the `sendMessage` URL. */
    method SendToTelegram(message: string)
      modifies this`requests
      ensures requests == old(requests) + ToSeq(NotifyRequest(Creds(), message, escape))
    {
      if botToken == "" || chatId == "" {
        return;
      }
      var url := SendMessageUrl(Creds(), message, escape);
      requests := requests + [url];
    }

    /** `log(level, message)` on day `date`: switch to that day's file when
        the day changed (`openOk` is the outcome of opening it), queue the
        formatted record at the back, and notify for an ERROR record. */
    method Log(level: LogLevel, message: string, date: string, openOk: bool)
      requires Valid()
      modifies this`currentDate, this`openFile, this`files, this`queue, this`requests
      ensures Valid()
      ensures date == old(currentDate) ==>
        currentDate == old(currentDate) && openFile == old(openFile) && files == old(files)
      ensures date != old(currentDate) ==>
        && currentDate == date
        && openFile == (if openOk then Some(LogFileName(date)) else None)
        && files == (if openOk then OpenForAppend(old(files), LogFileName(date)) else old(files))
      ensures queue == old(queue) + [FormatLine(date, level, message)]
      ensures requests == old(requests) + Notifications(level, Creds(), message, escape)
    {
      if date != currentDate {
        currentDate := date;
        openFile := None;
        OpenLogFile(openOk);
      }
      var line := FormatLine(date, level, message);
      queue := queue + [line];
      if level == Error {
        SendToTelegram(message);
      }
    }

    /** One pass of the inner loop of `processLogs`: pop the oldest record
        and write it to standard output and, when a file is open, to the end
        of that file. The worker holds no lock while it writes, so a
        producer's `log` may run between two of these steps. */
    method WriteNext()
      requires !workerDone && queue != []
      requires openFile.Some? ==> openFile.value in files
      modifies this`queue, this`stdout, this`files
      ensures queue == old(queue)[1..]
      ensures stdout == old(stdout) + [old(queue)[0]]
      ensures files == WriteLine(old(files), openFile, old(queue)[0])
      ensures old(Valid()) ==> Valid()
    {
      var line := queue[0];
      queue := queue[1..];
      stdout := stdout + [line];
      if openFile.Some? {
        files := files[openFile.value := files[openFile.value] + [line]];
      }
    }

    /** The inner loop of `processLogs`: take records from the front until
        the queue is empty. */
    method Drain()
      requires !workerDone
      requires openFile.Some? ==> openFile.value in files
      modifies this`queue, this`stdout, this`files
      ensures queue == []
      ensures stdout == old(stdout) + old(queue)
      ensures files == WriteLines(old(files), openFile, old(queue))
      ensures old(Valid()) ==> Valid()
    {
      ghost var pending := queue;
      ghost var i := 0;
      while queue != []
        invariant 0 <= i <= |pending| && queue == pending[i..]
        invariant stdout == old(stdout) + pending[..i]
        invariant files == WriteLines(old(files), openFile, pending[..i])
        invariant old(Valid()) ==> Valid()
        decreases |queue|
      {
        ghost var line := queue[0];
        WriteLinesSnoc(old(files), openFile, pending[..i], line);
        WriteNext();
        assert pending[..i + 1] == pending[..i] + [line];
        i := i + 1;
      }
      assert pending[..i] == pending;
    }

    /** One turn of the worker (`processLogs`): drain the queue from the
        front, in order, each record to standard output and, when a file is
        open, to the end of that file. The turn ends when the worker would
        wait (nothing queued and still running; a later turn resumes there)
        or when it ends (`_running` cleared and nothing queued). */
    method ProcessLogs() returns (finished: bool)
      requires Valid() && !workerDone
      modifies this`queue, this`stdout, this`files, this`workerDone
      ensures Valid()
      ensures queue == []
      ensures stdout == old(stdout) + old(queue)
      ensures openFile.None? ==> files == old(files)
      ensures openFile.Some? ==> files == old(files)[openFile.value := old(files)[openFile.value] + old(queue)]
      ensures finished == !running && workerDone == finished
    {
      WriteLinesAppends(files, openFile, queue);
      finished := false;
      while running || queue != []
        invariant Valid() && !workerDone
        invariant queue != [] ==> queue == old(queue) && stdout == old(stdout) && files == old(files)
        invariant queue == [] ==> stdout == old(stdout) + old(queue) && files == WriteLines(old(files), openFile, old(queue))
        decreases |queue|
      {
        if queue == [] {
          // still running with nothing queued: the worker waits here
          return;
        }
        Drain();
      }
      workerDone := true;
      finished := true;
    }

    /** `stop()`: clear `_running` and, when the worker is still joinable,
        join it, which lets it drain everything queued and end. A second
        `stop()` finds nothing to join and changes nothing else. */
    method Stop()
      requires Valid()
      modifies this`running, this`joinable, this`workerDone, this`queue, this`stdout, this`files
      ensures Valid()
      ensures !running && !joinable && workerDone
      ensures !old(workerDone) ==>
        && queue == []
        && stdout == old(stdout) + old(queue)
        && (openFile.None? ==> files == old(files))
        && (openFile.Some? ==> files == old(files)[openFile.value := old(files)[openFile.value] + old(queue)])
      ensures old(workerDone) ==>
        queue == old(queue) && stdout == old(stdout) && files == old(files)
    {
      running := false;
      if joinable {
        if !workerDone {
          var finished := ProcessLogs();
        }
        joinable := false;
      }
    }
  }
}
