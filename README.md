# postgres-docker: a verified model of the supervisor and the API helpers

This project models, in Dafny, the parts of the postgres-docker container that
make decisions:

- **The process supervisor** (`entrypoint.py`). It starts the database server
  and the Quart API server as shell subprocesses. It relays every line they
  write to the console, prefixed with the process and pipe name. It restarts
  the API server whenever it exits. It never restarts the database server: an
  exit of the database server raises and ends the container with exit code 1.
- **The API's argument sanitiser and response mapping**
  (`api/source/modules/api_helper.py`). A rule dictionary says which arguments
  an API method accepts: required or optional, allowed types, a transformer, a
  validator, allowed values, nested rules. The sanitiser builds a fresh
  dictionary holding only the ruled arguments. The `api_method` decorator turns
  what the method raises into an HTTP status and a `{status, data}` envelope.
- **The API's helpers** (`api/source/modules/utils.py`): timestamped backup
  file names, unique file names by counter postfix, and the relay of a child's
  pipes to a logger at info or error level.
- **The configuration** (`api/source/env.py`): each setting from its
  command-line option, else its environment variable, else a default, combined
  with Python's `or`; three required settings are checked.

Files:

| file | module | contents |
|---|---|---|
| `common.dfy` | `Common` | `Option` and `Result` |
| `decimal.dfy` | `Decimal` | `str(int)`, `int(str)`, zero-padded fields |
| `streams.dfy` | `Streams` | a pipe as a `LineReader` class; one execution of a command (`Run`); interleavings of two relayed pipes |
| `entrypoint.dfy` | `Entrypoint` | console, line relay, supervision loop, `main` |
| `utils.dfy` | `Utils` | timestamped and unique file names, logger relay |
| `api_helper.dfy` | `ApiHelper` | JSON values, rules, the sanitiser as a specification function and as the source's loops, the wrapper |
| `env.dfy` | `Env` | settings resolution, with the port precedence as written and as intended |

How the outside world is represented:

- **Running a command** is an oracle: a `Run` value is what one execution does.
  It holds the lines written on stdout and on stderr, the order in which the
  two concurrent relays happen to be scheduled, and the return code. A `Run`
  can also record that the shell could not be spawned.
- **A supervised command** gets a finite sequence of runs, one per execution.
  When the sequence is used up while the policy would restart again, the
  outcome is `Running`: supervision goes on.
- **A pipe** is a `LineReader` object. It holds the lines still to come, and
  its `ReadLine` method advances a position. At end of file it returns the
  empty text.
- **The console and the logger** are objects whose methods append to a
  sequence.
- **The clock** is a parameter of `GetTimestampedFilename`.
- **A directory** is the set of names of the regular files it holds.
- **A transformer or a validator** is a function that returns a value or names
  the exception it raises. The same holds for the decorated API method.

## Model

| member | source | states |
|---|---|---|
| Decimal.NatToString | entrypoint.py:61 | `str(n)` is a non-empty digit string without leading zero |
| Decimal.NatToStringInjective | api/source/modules/utils.py:43 | distinct counters are written differently |
| Decimal.ParseInt | api/source/env.py:29 | `int(text)` succeeds exactly on an optional sign followed by at least one digit |
| Decimal.ParseIntRoundTrip | api/source/env.py:29 | `int(str(n)) == n` for every integer |
| Decimal.ZeroPaddedValue | api/source/modules/utils.py:30 | a zero-padded field is at least as wide as asked and reads back as the number |
| Decimal.ZeroPaddedLength | api/source/modules/utils.py:30 | a number below 10^width fills its field exactly |
| Streams.LineReader.ReadLine | entrypoint.py:27 | `readline` returns the next line and advances, so the pending lines lose their head, or returns the empty text at end of file and stays put |
| Streams.InterleavingKeepsElements | entrypoint.py:41-44 | the console output of two gathered relays holds exactly the lines of both, none lost or invented |
| Streams.ConcatenationIsInterleaving | entrypoint.py:41-44 | relaying one pipe entirely before the other is one admissible schedule |
| Entrypoint.RelayLine | entrypoint.py:29 | the printed text is the process name, an arrow, the pipe name, two spaces and a vertical bar, then the line unchanged, with no newline added (`end=""`) |
| Entrypoint.RelayedLinesAt | entrypoint.py:29 | the i-th relayed text is the i-th line, prefixed with the process name, an arrow and the pipe name |
| Entrypoint.RelayStep | entrypoint.py:27-29 | one read: at end of file nothing is printed and the loop is told to stop; otherwise the line is printed with its origin |
| Entrypoint.PrintLinesContinuously | entrypoint.py:20-29 | the reader is drained and the console gains exactly the relayed lines in read order |
| Entrypoint.RelayedOneMore | entrypoint.py:41-44 | printing the next line of either pipe keeps the console an interleaving of the two relays |
| Entrypoint.RelayTurn | entrypoint.py:41-44 | one scheduled step of either relay advances only that pipe and keeps the interleaving |
| Entrypoint.GatherRelays | entrypoint.py:41-44 | after the gather both pipes are at end of file and the new console lines interleave the two relays, each in read order |
| Entrypoint.ExecuteSubprocessShell | entrypoint.py:32-47 | a spawn failure raises and prints nothing; otherwise the return code comes back only after both relays are complete |
| Entrypoint.Supervision | entrypoint.py:59-74 | the policy never starts more executions than it is given |
| Entrypoint.SupervisionStep | entrypoint.py:59-74 | at each execution: a spawn failure raises; restart goes on with the next execution; otherwise the loop ends, raising exactly when critical |
| Entrypoint.ExitedMessage | entrypoint.py:61 | the exit report names the process and ends with `.` and the newline `print` adds |
| Entrypoint.RestartMessage | entrypoint.py:63-69 | the announcement starts with `Restarting` exactly when the process is restarted (otherwise it says it will NOT be restarted) and ends with a newline |
| Entrypoint.SuperviseOnce | entrypoint.py:60-70 | one pass returns the run's code or raises, and prints the relayed pipes, the exit code line and the restart announcement |
| Entrypoint.SuperviseTurn | entrypoint.py:60-70 | one pass extends the record of everything the loop has printed by exactly that pass |
| Entrypoint.SuperviseLoop | entrypoint.py:59-74 | the loop's outcome and number of executions are the policy's, and the console holds exactly the passes' output in order |
| Entrypoint.CreatingMessage | entrypoint.py:57 | the announcement names the process after `Creating subprocess` and ends with a newline |
| Entrypoint.StartSupervisedProcess | entrypoint.py:50-74 | the announcement line, then the loop's passes; outcome as the policy says |
| Entrypoint.NoRestartRunsOnce | entrypoint.py:63-74 | without restart the command runs exactly once; the loop then raises if critical, else returns |
| Entrypoint.RestartNeverStops | entrypoint.py:59-65 | with restart and no spawn failure every execution is used and supervision never ends |
| Entrypoint.RestartNeverReturns | entrypoint.py:59-74 | a restarted process never returns normally, and raises only on a spawn failure (relay exceptions are left out) |
| Entrypoint.SupervisionIgnoresExitCodes | entrypoint.py:60-74 | return codes and output never influence the restart or critical decision |
| Entrypoint.MainExit | entrypoint.py:77-90 | exit 1 exactly when some supervisor raised; exit 0 exactly when every supervisor returned |
| Entrypoint.RunMain | entrypoint.py:77-90 | the exit status is the aggregate of the two supervisors' outcomes, and exit 1 is preceded by `Exception: <message>` |
| Entrypoint.ShippedConfigurationExit | entrypoint.py:81-82 | with the shipped flags the container never exits 0, and exits 1 once the database server has run |
| Utils.FormatTimestampShape | api/source/modules/utils.py:30 | `%Y%m%d%H%M%S` gives 14 digits that read back as the instant |
| Utils.GetTimestampedFilename | api/source/modules/utils.py:24-30 | 14 timestamp digits, `_`, the name, then `.ext` only for a non-empty extension |
| Utils.SplitExt | api/source/modules/utils.py:38 | `os.path.splitext`: the stem and the extension together are the name, and a non-empty extension starts with a dot |
| Utils.SplitExtShape | api/source/modules/utils.py:38 | `splitext` loses no character, and an extension is a dot followed by neither dots nor separators |
| Utils.Candidate | api/source/modules/utils.py:43 | `f"{file_name}_{i}{file_extension}"`: the stem, `_`, the decimal counter, then the extension, each at its own position |
| Utils.CandidateInjective | api/source/modules/utils.py:43 | different counters give different candidate names |
| Utils.GetUniqueFilename | api/source/modules/utils.py:33-46 | the result is not taken; it is the name itself when free, else `stem_k.ext` for the least free k from 2 |
| Utils.CandidateKeepsExtension | api/source/modules/utils.py:38-43 | a candidate has the same extension as the original name |
| Utils.StripTrailingSeparatorsShape | api/source/modules/utils.py:60 | `rstrip(os.linesep)` cuts exactly the trailing separators and keeps the rest |
| Utils.StripsOneLineBreak | api/source/modules/utils.py:60 | a line read with its line break is logged without it |
| Utils.LineRecord | api/source/modules/utils.py:58-63 | a line is logged at error level exactly when it came from `stderr`, with a message starting `Subprocess <name>: ` |
| Utils.LineRecordsAt | api/source/modules/utils.py:58-63 | the i-th record is at error level exactly for stderr and holds `Subprocess <name>: ` and the stripped i-th line |
| Utils.LogStep | api/source/modules/utils.py:56-63 | one read: at end of file nothing is logged; otherwise one record for the line |
| Utils.LogLinesContinuously | api/source/modules/utils.py:49-63 | the reader is drained and the logger gains exactly the records of the lines in read order |
| Utils.LoggedOneMore | api/source/modules/utils.py:75-78 | logging the next line of either pipe keeps the records an interleaving of the two |
| Utils.LogTurn | api/source/modules/utils.py:75-78 | one scheduled step of either logging loop advances only that pipe and keeps the interleaving |
| Utils.GatherLogRelays | api/source/modules/utils.py:75-78 | after the gather both pipes are drained and the new records interleave the two pipes' records |
| Utils.ExecuteSubprocessShell | api/source/modules/utils.py:66-81 | a spawn failure raises and logs nothing; otherwise the return code comes back only after both pipes are logged |
| ApiHelper.Sanitize | api/source/modules/api_helper.py:49-100 | success needs a dictionary root, adds exactly the name when provided and touches no other entry, and a required name is provided; an error's path extends the current path |
| ApiHelper.SanitizeEach | api/source/modules/api_helper.py:95-96 | the keys added are exactly the provided ruled names; every required name is provided; an error's path extends the current path |
| ApiHelper.SanitizeArgumentRecursive | api/source/modules/api_helper.py:49-100 | the source's chain of checks computes the specification `Sanitize` |
| ApiHelper.SanitizeNested | api/source/modules/api_helper.py:92-97 | filling a fresh dictionary rule by rule computes `SanitizeEach` |
| ApiHelper.SanitizeArgumentsLoop | api/source/modules/api_helper.py:102-105 | the top-level loop computes `SanitizeArguments` |
| ApiHelper.SanitizeConforms | api/source/modules/api_helper.py:92-100 | sanitising one argument keeps the output free of unruled keys at every level |
| ApiHelper.SanitizeEachConforms | api/source/modules/api_helper.py:95-96 | sanitising a run of rules keeps the output free of unruled keys at every level |
| ApiHelper.SanitizedArgumentsConform | api/source/modules/api_helper.py:102-105 | every key of the sanitised arguments, at every level, has a rule |
| ApiHelper.Message | api/source/modules/api_helper.py:60-90 | each of the four sanitisation errors' texts starts with its kind and the argument's name before ` at `; a validation failure's text ends with the validator's reason |
| ApiHelper.ErrorPathsStartAtRoot | api/source/modules/api_helper.py:104 | every sanitisation error's path starts with `root` |
| ApiHelper.MissingRequiredArgument | api/source/modules/api_helper.py:59-62 | a missing required argument raises naming the argument and its path |
| ApiHelper.MissingOptionalArgument | api/source/modules/api_helper.py:59-60 | a missing optional argument leaves the output unchanged |
| ApiHelper.TypeCheck | api/source/modules/api_helper.py:66-70 | a type outside non-empty allowed types is rejected first; without allowed types the argument itself never gets a type error |
| ApiHelper.ChecksSeeTransformedValue | api/source/modules/api_helper.py:74-90 | the validator and the allowed values see the transformed value; a validation error becomes a sanitisation error and anything else propagates unchanged |
| ApiHelper.SanitizedValue | api/source/modules/api_helper.py:92-100 | a leaf argument holds the accepted transformed value; a nested one holds a fresh dictionary sanitised with the path extended by its name |
| ApiHelper.ErrorResponse | api/source/modules/api_helper.py:129 | an error response carries `{'error': message}` and its status in both places |
| ApiHelper.FailureResponse | api/source/modules/api_helper.py:125-141 | an `ArgumentSanitizationError`, the sanitiser's or one a transformer, validator or the method raised, gives 400; an HTTP exception gives its code; anything else gives 500; envelope status equals HTTP status |
| ApiHelper.HandlerArguments | api/source/modules/api_helper.py:121 | without sanitising the method gets the body unchanged; with it, the method gets the sanitised dictionary, and building the arguments fails exactly when sanitising fails |
| ApiHelper.Wrapper | api/source/modules/api_helper.py:119-141 | the method is called only once the body is read and the arguments are built, and on those arguments; its `(status, data)` is the response; what `get_json`, the sanitiser or the method raises goes through `FailureResponse`; the envelope's status always equals the HTTP status |
| ApiHelper.HandlerSeesOnlyRuledKeys | api/source/modules/api_helper.py:121 | with sanitising on, the method receives a dictionary whose keys, at every level, all have rules |
| ApiHelper.HandlerSeesOnlySanitizedArguments | api/source/modules/api_helper.py:109-122 | with sanitising on, two methods that agree on every rule-conforming dictionary give the same response to every request |
| ApiHelper.RaisedSanitizationErrorsAreBadRequests | api/source/modules/api_helper.py:125-129 | an `ArgumentSanitizationError` raised by a callable is answered exactly like the sanitiser's own error with the same text: 400 and `400 Bad Request: <message>` |
| ApiHelper.ClientErrorsAreBadRequests | api/source/modules/api_helper.py:125-129 | a sanitisation error is answered with 400 and `400 Bad Request: <message>` |
| ApiHelper.InternalErrorDetail | api/source/modules/api_helper.py:137-141 | any other exception is a 500 whose text is shown only in debug mode |
| Env.Lower | api/source/env.py:20 | lower-casing maps every character and leaves no upper-case letter |
| Env.QuartPortAsWritten | api/source/env.py:29 | as written: the option is used only when `QUART_PORT` is set, and it raises exactly when the variable is set, the option is absent or zero, and `int()` refuses the variable |
| Env.QuartPortIntended | api/source/env.py:29 | as intended: a resolved port is never 0, and a failure is the `int()` error on the `QUART_PORT` text |
| Env.CommandLinePortIgnored | api/source/env.py:29 | as written, an unset `QUART_PORT` variable gives 5000 whatever the option says |
| Env.CommandLinePortIgnoredExample | api/source/env.py:29 | `--quart_port 8080` with no variable: 5000 as written, 8080 as intended |
| Env.QuartPortPrecedence | api/source/env.py:29 | intended port: a non-zero option wins; without one, a set and parsable variable gives its value, or 5000 when that value is zero; an unset or empty variable gives 5000; the variable raises exactly when read and unparsable |
| Env.QuartPortReadingsAgree | api/source/env.py:29 | the two readings raise on the same inputs, and agree whenever the variable is set and the as-written port is not zero |
| Env.Setting | api/source/env.py:20-28 | `option or os.getenv(key) or default`: the option when non-empty, else the variable when non-empty, else the default |
| Env.Required | api/source/env.py:25-30 | `option or os.getenv(key)`: non-empty exactly when the option or the variable is, and then the option first |
| Env.Resolve | api/source/env.py:20-35 | a resolved configuration always has the three required settings non-empty |
| Env.FirstNonEmpty | api/source/env.py:20-28 | the reference chain yields the default or one of the non-empty candidates |
| Env.ChainIsFirstNonEmpty | api/source/env.py:22-23 | `option or variable or default` is the first non-empty of the three |
| Env.SettingsPrecedence | api/source/env.py:20-30 | each of the seven string settings (environment, both paths, both connection strings, host, secret key) is the option if non-empty, else the variable if non-empty, else its default; the port and `DEBUG` are stated by `Env.QuartPortPrecedence` and `Env.DebugFlag` |
| Env.EnvironmentIsLowerCase | api/source/env.py:20 | `ENVIRONMENT` has no upper-case letter and is `production` unless set |
| Env.DebugFlag | api/source/env.py:21 | `DEBUG` is on with the flag or any non-empty variable, `"false"` included |
| Env.Defaults | api/source/env.py:22-29 | unset paths, host and port take `/backups`, `/logs`, `127.0.0.1` and 5000 |
| Env.ResolveErrorMessages | api/source/env.py:29-35 | the exception text is `int()`'s complaint quoting `QUART_PORT`, or the message of the first missing required setting |
| Env.ResolveFailures | api/source/env.py:29-35 | resolution raises exactly for an unparsable port or a missing or empty required setting, the first failing check in source order |

## Left out

- Process creation, pipes, `asyncio` scheduling and `process.wait()` are not modelled as I/O. A run is an oracle, and the interleaving of two concurrent relays is fixed by the run's schedule.
- Entrypoint.RunMain: runs the two supervisors one after the other instead of concurrently. So its console output is not interleaved. When both raise, the message printed is the database server's, whereas the source prints whichever exception `gather` reports first.
- Entrypoint.StartSupervisedProcess: a restarted process is supervised only for as many executions as its run sequence holds. Beyond that the outcome is `Running`.
- Entrypoint.RelayLine, Utils.LineRecord, Entrypoint.PrintLinesContinuously, Utils.LogLinesContinuously: pipes carry already decoded lines of any length. Two exceptions of the source's relays are not modelled. `decode` raises on invalid UTF-8 (entrypoint.py:29, api/source/modules/utils.py:60,63). `StreamReader.readline` raises `ValueError` on a line longer than its 64 KiB limit (entrypoint.py:27, api/source/modules/utils.py:56). Since the supervisor loop has no `try`, either exception would end the supervisor, even one with restart, and `main` would exit 1. So Entrypoint.RestartNeverReturns and Entrypoint.RestartNeverStops hold of the model only: in the source a restarted process can also raise through a relay.
- Decimal.ParseInt: accepts an optional sign followed by ASCII digits. Python's `int` also accepts surrounding whitespace, underscores between digits and non-ASCII digits.
- Env.Lower: lower-cases ASCII letters only. Python's `str.lower` also covers the rest of Unicode.
- Env.Resolve: resolves the port with the corrected precedence of `Env.QuartPortIntended`. The source's reading is `Env.QuartPortAsWritten`; see Findings.
- Env.ErrorMessage: the `ValueError` text quotes the variable as given, not with Python's `repr` escaping.
- `argparse` itself is not modelled: its result is the `Args` record, and `--quart_port` is already an integer.
- ApiHelper.Str: renders a list or a dictionary inside an "Unsupported value" message as a bracket placeholder, not as Python's `str` of the container.
- JSON numbers with a fraction (Python floats) are not among the modelled values.
- The `logger.exception` calls of the decorator are not modelled. Nor are Quart's `Response` object, JSON serialisation and the wrapper's `__name__`.
- Utils.GetUniqueFilename: the directory is the set of names of the regular files in it. Joining the directory path and `Path.is_file` are not modelled.
- `datetime.now(tz=UTC)` is not modelled: the instant is a parameter. The four-digit year is assumed, as `datetime` guarantees for years 1000 to 9999.
- The logger keeps only each record's level and message. Handlers, formatting and time stamps are not modelled.
- `filename_validator` (api/source/modules/utils.py:12-21) wraps an external validation library and is not part of this model. Also outside it: `api/source/modules/backup.py` (database dumps through `pg_dump`), and `api/source/app.py`, `api/run.py`, `api/run_debug.py`, `api/run_production.py` and `api/source/patcher.py` (server start-up).

## Findings

| source | as written | input that shows it | evidently intended | confidence | as-written member | corrected member |
|---|---|---|---|---|---|---|
| api/source/env.py:29 | `args.quart_port or int(os.getenv('QUART_PORT')) if os.getenv('QUART_PORT') else None or 5000`. The conditional expression binds loosest, so the option is consulted only when the `QUART_PORT` variable is set | `--quart_port 8080` with no `QUART_PORT` variable: the port is 5000 | `args.quart_port or (int(os.getenv('QUART_PORT')) if os.getenv('QUART_PORT') else None) or 5000`: the option first, like every other setting | not executed | Env.QuartPortAsWritten, shown by Env.CommandLinePortIgnoredExample and Env.CommandLinePortIgnored | Env.QuartPortIntended, with Env.QuartPortPrecedence |
