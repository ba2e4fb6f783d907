# Asynchronous logger — a verified model

A Dafny model of the sequential core of `Logger` from HenryMorles/Asynchronous-Logger. `Logger` is a singleton logger. It formats records as `[date] [LEVEL] message`, queues them, and has a background thread write them to standard output and to `logs/<date>.log`. It sends ERROR records to Telegram.

The model is a state machine made of the class `AsyncLogger.Logger` and its methods. Its state is:

- the queue of formatted lines;
- the current day key;
- the open file, or none;
- the running flag;
- the contents of every log file;
- what was written to standard output;
- whether the worker has been joined, and whether it has ended;
- the two Telegram credentials;
- the `sendMessage` requests made so far.

The threads become explicit sequential steps:

- `Log` is one producer call of `log()`.
- `WriteNext` is one pass of the worker's inner loop. It takes the oldest record and writes it to standard output and to the open file. The worker holds no lock while it writes, so a client may place a `Log` between two `WriteNext` steps.
- `ProcessLogs` is one turn of the worker (`processLogs()`). The turn lasts until the worker would block on the condition variable, or until it ends. Its inner loop, `Drain`, repeats `WriteNext`.
- `Stop` is `stop()`. It runs the worker to its end when it joins it.

These operations are pure functions, each with lemmas:

- the level tag, the record line, and the file name (module `LogFormat`);
- the `.env` parsing, as a fold over the file's lines (module `Env`);
- the notifier's decision and its request URL (module `Telegram`).

`Logger.LoadEnv` is the loop the source runs over `.env`. It is proved equal to that fold.

Inputs the real program takes from its surroundings are parameters:

- the day key that `getCurrentDate()` reads from the clock;
- whether `ofstream::open` succeeds;
- the lines of `.env`, or `None` when the file is missing;
- the files already on disk;
- `curl_easy_escape`, as an uninterpreted `string -> string`.

Behaviour of the code that the model keeps on purpose:

- Day rotation happens in `log()`, on the producer's side, before the record is queued. It does not happen in the worker. A line queued before the day changes but written after the change therefore lands in the new day's file. `LoggerScenarios.RotationWhileBehind` shows this. The day can also change part-way through a drain. Then the day's earlier records go to its own file and its later ones go to the new day's file, as `LoggerScenarios.RotationMidDrain` shows.
- A file that fails to open stays closed until the day changes. Until then, records reach standard output only.
- A record logged after `stop()` is queued but never written.

## Model

| member | source | states |
|---|---|---|
| Base.IndexOf | AsynchronousLogger/src/Logger.cpp:160-161 | `find('=')`: None exactly when the character is absent; otherwise the position of its first occurrence |
| Base.IndexOfAt | AsynchronousLogger/src/Logger.cpp:160 | the first occurrence is unique: a position holding the character with none before it is the one `find` returns |
| LogFormat.LevelName | AsynchronousLogger/src/Logger.cpp:99-105 | a record's tag is one of `INFO`, `WARNING` and `ERROR`, and it holds no `]` |
| LogFormat.FormatLine | AsynchronousLogger/src/Logger.cpp:107-108 | the record line has the layout `[` date `] [` tag `] ` message and newline, field by field, and exactly that length |
| LogFormat.LevelOfName | AsynchronousLogger/src/Logger.cpp:99-105 | a tag read back names a level whose tag is exactly that text |
| LogFormat.LevelNameRoundTrip | AsynchronousLogger/src/Logger.cpp:99-105 | the three levels get three distinct tags, `INFO`, `WARNING` and `ERROR`, and each tag leads back to its level |
| LogFormat.ParseLine | AsynchronousLogger/src/Logger.cpp:107-108 | any line accepted as a record is exactly `"[" + date + "] [" + tag + "] " + message + "\n"` for the record it returns, and the date holds no `]` |
| LogFormat.ParseFormatLine | AsynchronousLogger/src/Logger.cpp:99-108 | every formatted record line reads back as the date, level and message it was made from |
| LogFormat.FormatLineInjective | AsynchronousLogger/src/Logger.cpp:107-108 | two records give the same line if and only if they have the same date, level and message |
| LogFormat.DateKeyHasNoBracket | AsynchronousLogger/src/Logger.cpp:44-45 | a `%Y-%m-%d` day key holds no `]`, so the round trip above applies to every record the logger writes |
| LogFormat.LogFileName | AsynchronousLogger/src/Logger.cpp:51 | a day's file name is `logs/`, then the day key, then `.log`, and nothing else |
| LogFormat.DateOfLogFile | AsynchronousLogger/src/Logger.cpp:51 | a name accepted as a log file is exactly `logs/<date>.log` for the date it returns |
| LogFormat.DateOfLogFileName | AsynchronousLogger/src/Logger.cpp:51 | the file name of a day gives that day back |
| LogFormat.LogFileNameInjective | AsynchronousLogger/src/Logger.cpp:51 | two days share a log file if and only if they are the same day |
| Env.SplitEnvLine | AsynchronousLogger/src/Logger.cpp:160-164 | a line splits exactly when it holds `=`; the key holds no `=` and is followed by `=` and then the value |
| Env.SplitEnvLineOf | AsynchronousLogger/src/Logger.cpp:160-164 | `key=value`, with no `=` in the key, splits into that key and that value, even when the value holds `=` |
| Env.EnvFold | AsynchronousLogger/src/Logger.cpp:158-175 | after the lines are read in order, each credential either keeps its starting value or holds a value that some line assigns to its key |
| Env.LoadedCredentials | AsynchronousLogger/src/Logger.cpp:148-175 | with no `.env` both credentials are empty; a non-empty credential is a value that some line of `.env` assigns to its key |
| Env.ApplyEnvLine | AsynchronousLogger/src/Logger.cpp:160-174 | a line without `=` changes no credential |
| Env.ApplyAssignment | AsynchronousLogger/src/Logger.cpp:163-173 | `TELEGRAM_BOT_TOKEN=v` sets the token to v, `TELEGRAM_CHAT_ID=v` sets the chat id to v, and any other key changes nothing |
| Env.ApplyOtherKey | AsynchronousLogger/src/Logger.cpp:166-173 | a line that assigns another key leaves a credential unchanged |
| Env.LastAssignmentWins | AsynchronousLogger/src/Logger.cpp:158-175 | after all lines are read, a credential holds the value of the last line that assigns its key |
| Env.UnassignedKeepsValue | AsynchronousLogger/src/Logger.cpp:158-175 | a credential that no line assigns keeps the value it had before |
| Telegram.SendMessageUrl | AsynchronousLogger/src/Logger.cpp:67-69 | the URL is the API prefix, token, `/sendMessage?chat_id=`, chat id and `&text=`, followed by exactly the escaped message and nothing else |
| Telegram.NotifyRequest | AsynchronousLogger/src/Logger.cpp:59-69 | no request exactly when the token or the chat id is empty; otherwise the request is the `sendMessage` URL for the message |
| Telegram.UrlDeterminesText | AsynchronousLogger/src/Logger.cpp:67-69 | with fixed credentials, two requests are equal if and only if their escaped messages are equal |
| Telegram.Notifications | AsynchronousLogger/src/Logger.cpp:117-120 | a `log` call requests at most once; it requests if and only if the record is ERROR and both credentials are set; the request is the `sendMessage` URL for the message |
| AsyncLogger.OpenForAppend | AsynchronousLogger/src/Logger.cpp:52 | opening for append keeps an existing file's lines, creates a missing file empty, and changes no other file |
| AsyncLogger.WriteLine | AsynchronousLogger/src/Logger.cpp:136-141 | writing a record puts it at the end of the open file and changes no other file; with no file open, no file changes |
| AsyncLogger.WriteLines | AsynchronousLogger/src/Logger.cpp:136-141 | writing records never creates or removes a file |
| AsyncLogger.WriteLinesAppends | AsynchronousLogger/src/Logger.cpp:136-141 | the records are appended, in order, to the end of the open file and to no other file; with no file open, no file changes |
| AsyncLogger.Logger.Valid | AsynchronousLogger/src/Logger.cpp:91-97 | the open file, if any, is the current day's file and exists: its name gives the current day key back |
| AsyncLogger.Logger.constructor | AsynchronousLogger/src/Logger.cpp:9-16 | starts running and not joined, with an empty queue, the credentials read from `.env`, the given day, and that day's file open for append when the open succeeds |
| AsyncLogger.Logger.LoadEnv | AsynchronousLogger/src/Logger.cpp:148-178 | a missing `.env` changes nothing; otherwise the loop leaves the credentials as the fold of the file's lines |
| AsyncLogger.Logger.OpenLogFile | AsynchronousLogger/src/Logger.cpp:49-57 | opens `logs/<currentDate>.log` for append when the open succeeds; otherwise no file is open and the files are unchanged |
| AsyncLogger.Logger.SendToTelegram | AsynchronousLogger/src/Logger.cpp:59-69 | appends exactly the request that the credentials call for (none or one) |
| AsyncLogger.Logger.Log | AsynchronousLogger/src/Logger.cpp:89-121 | on the same day, the day and the open file are unchanged; on a new day, it switches to that day and opens `logs/<day>.log`; in both cases it appends exactly one formatted line at the back of the queue, earlier entries untouched, and makes the requests `Notifications` specifies |
| AsyncLogger.Logger.WriteNext | AsynchronousLogger/src/Logger.cpp:132-141 | takes the oldest record off the queue and writes it once to standard output and to the end of the open file, if one is open |
| AsyncLogger.Logger.Drain | AsynchronousLogger/src/Logger.cpp:130-144 | empties the queue from the front; every queued line goes to standard output once, in order, and to the open file through the same writes |
| AsyncLogger.Logger.ProcessLogs | AsynchronousLogger/src/Logger.cpp:123-146 | a worker turn leaves the queue empty; standard output gains the queued lines in order; the open file gains them at its end and no other file changes; the worker ends exactly when `_running` is false |
| AsyncLogger.Logger.Stop | AsynchronousLogger/src/Logger.cpp:23-31 | afterwards the logger is not running, the worker is joined and has ended, and every line queued before the call is written; a second `stop()` writes nothing more |
| LoggerScenarios.OneDay | AsynchronousLogger/src/Logger.cpp:89-146 | INFO, WARNING and ERROR records of one day end up in that day's file and on standard output, in order, with their tags |
| LoggerScenarios.ReadTwoCredentials | AsynchronousLogger/src/Logger.cpp:158-175 | a `.env` with the token line and then the chat-id line yields both |
| LoggerScenarios.OneDayNotifies | AsynchronousLogger/src/Logger.cpp:117-120 | with both credentials set, the same three records make exactly one request, the one for the ERROR message |
| LoggerScenarios.RotationWhileBehind | AsynchronousLogger/src/Logger.cpp:91-97 | when the day changes before the worker runs, the first day's line lands in the second day's file and the first day's file stays empty |
| LoggerScenarios.RotationCaughtUp | AsynchronousLogger/src/Logger.cpp:91-97 | when the worker keeps up, each day's line lands in that day's file |
| LoggerScenarios.OneOfTwoWritten | AsynchronousLogger/src/Logger.cpp:130-141 | after two records are queued and the worker writes one, the second is still queued and the day's file holds the first alone |
| LoggerScenarios.RotationMidDrain | AsynchronousLogger/src/Logger.cpp:91-97 | if the day changes between two of the worker's writes, the first record stays in the first day's file, and the second record of that day lands in the new day's file ahead of the new day's record |
| LoggerScenarios.StopDrains | AsynchronousLogger/src/Logger.cpp:23-31 | `stop()` writes both queued lines; a second `stop()` changes nothing; a line logged afterwards stays queued |
| LoggerScenarios.NoCredentialsNoFile | AsynchronousLogger/src/Logger.cpp:136-141 | with no `.env` and a failed open, an ERROR record reaches standard output only: no request is made and no file is written |

## Left out

- Threads, `std::mutex`, `std::condition_variable`, `std::atomic` and the wait predicate (Logger.cpp:15, 26-31, 111-115, 127-128). Producer and worker are interleavable sequential steps. A worker that would block is a turn of `ProcessLogs` that returns, and the next turn resumes it.
- The data race between rotation in `log()` and the worker's unlocked writes to `_logFile` (Logger.cpp:95-96 and 139-140). Each `Log` call and each single-record `WriteNext` is atomic here. A rotation that falls between a record's write to standard output and its write to the file, or inside the close and reopen, is not modelled. Thread safety is not a claim of this model.
- libcurl's `curl_easy_init`, `setopt`, `perform` and `cleanup`, the disabled TLS verification, redirect following, and the failure of `curl_easy_init` (Logger.cpp:71-86). A request is recorded as its URL. The network call itself and its outcome are not modelled.
- `curl_easy_escape` (Logger.cpp:69) is an uninterpreted function. Its percent-encoding belongs to libcurl, and so does the unfreed buffer it returns.
- The clock and `strftime` (Logger.cpp:33-47). The day key is a parameter. `LogFormat.IsDateKey` describes its `%Y-%m-%d` shape.
- `createLogDirectory` (Logger.cpp:180-187) is not modelled. This includes `mkdir`, and the non-Windows branch's use of an undeclared `LOG_DIRECTORY`. The `logs` directory is assumed to exist. Whether each open succeeds is a parameter.
- `ofstream` flush and close, and write errors. A write to an open file always appends the whole line.
- Opening `.env` and splitting it into lines with `std::getline` (Logger.cpp:150-158). The file is given as its sequence of lines, without the newline characters.
- Every `std::cerr` diagnostic (Logger.cpp:53-56, 63, 82, 153). They change no state.
- The static-local singleton `getInstance` (Logger.cpp:3-7). The destructor (Logger.cpp:18-21) only calls `stop()`, which `Stop` models.
- `main.cpp`, a timing demo with no logic of its own, is not part of this model.
