# boxunphp/logger in Dafny

A model of a small PSR-3 logger for PHP and of its JSON-lines stream handler.

- `Logger::log(level, message)` checks the level name against the eight PSR-3 names.
- It drops calls whose rank is below the configured minimum.
- It replaces every carriage return and line feed of a string message with a space, and JSON-encodes any other message.
- It builds a seven-field record from the request context.
- It hands that record to the current handler in one `write`.
- `StreamHandler::write` encodes the record as one JSON line and appends it to standard output or standard error. For any other destination it reopens the named file in `wb` mode, so the file holds only the latest line.

Files and modules:

- `Wrappers.dfy` (`Wrappers`): `Option` and `Result`.
- `Records.dfy` (`Records`): the PHP value a message can be (`Value`), the record (`Record`) and the ordered array `$log` built from it (`ToArray`).
- `StreamHandler.dfy` (`StreamHandlers`):
  - the process's files and streams as a value (`World`) and as an object (`Io`);
  - the effect of one write as a function (`Deliver`, with `OpenForWriting` for `fopen(..., 'wb')` + `fwrite` + `fclose`);
  - the `StreamHandler` class, whose `Write` is proved against `Deliver`.
- `Logger.dfy` (`Logging`):
  - the rank table `LEVELS` and its order `LEVEL_NAMES`;
  - the filter (`MinRank`, `Dropped`);
  - the message rewrite (`Normalize`, `MessageText`) and the record (`MakeRecord`, `Host`);
  - the decision of one call as a function (`Decide`: reject, drop or dispatch a record);
  - the process-wide minimum level as one shared object (`LevelSetting`);
  - the `Logger` class, which reads that shared setting, and whose `Log` is proved against `Decide` and `Deliver`.

Inputs from outside the core, passed as parameters:

- The clock (`date('c')`) and the request context (`requestId`, `isCli`, `serverHost`, `serverIp`, `clientIp`) are a `Request` value.
- `json_encode` is the parameter `encode: Value -> string`. Nothing is assumed about its output, except that it is a string.
- The file system and the standard streams are an `Io` object passed to `Log` and `Write`.

Modelling decisions:

- **Unknown minimum level.** `setLevel` stores its argument without checking it (src/Logger.php:73-76). When the stored minimum is not a level name, the lookup at src/Logger.php:84 reads an undefined key. Under PHP's default error handling that reads as `null`. Comparing an int with `null` converts both to booleans, and `true < false` is false, so no call is dropped. `MinRank` models this as rank 0, which is below every real rank. `UnknownMinimumDropsNothing` states the consequence.
- **No handler set.** `$handler` starts as `null`. If an admitted call happens before `setHandler`, PHP throws at src/Logger.php:114. The model returns `Err(NoHandler)`, and nothing is written.
- **Empty file name.** The handler's default filename is `''` (src/Handler/StreamHandler.php:15). With it, `fopen('', 'wb')` fails: PHP 8 throws, PHP 7 warns and writes nothing. The model returns `Err(EmptyPath)`, and nothing is written.
- **Stream names without the constants.** When STDOUT or STDERR is not defined, `php://stdout` and `php://stderr` fall through to `fopen`. That opens a new handle on the same stream, so the line is still appended to that stream. The contract of `Deliver` states that the two constant checks only choose the handle.
- **Static minimum level.** The minimum level is a static property in the source (src/Logger.php:36), shared by every Logger and set by the static `setLevel`. Here it is one `LevelSetting` object, created once with the default "info" and handed to every `Logger`. `SetLevel` changes it, and every logger created before or after reads the new value.

## Model

| member | source | states |
|---|---|---|
| Logging.RanksStrictlyIncrease | src/Logger.php:24-46 | exactly the eight PSR-3 names are accepted; the ranks strictly increase from debug to emergency, so no two names share a rank |
| Logging.Normalize | src/Logger.php:95-96 | the rewritten message has the input's length and no CR or LF; each CR or LF became a space; every other character is kept in place |
| Logging.NormalizeSingleLine | src/Logger.php:96 | a string that has no CR or LF is left unchanged |
| Logging.NormalizeIdempotent | src/Logger.php:96 | normalizing an already normalized message changes nothing |
| Logging.MessageText | src/Logger.php:95-102 | a string message keeps its length, and each character is kept except that CR and LF become spaces; any other value becomes its JSON encoding |
| Logging.UnknownLevelRejected | src/Logger.php:80-82 | a call is rejected exactly when its level is not one of the eight names, whatever the minimum |
| Logging.WrittenIffAtLeastMinimum | src/Logger.php:84-86 | for known level and minimum, a record is dispatched iff rank(level) >= rank(minimum), and dropped otherwise |
| Logging.WrittenIffNotLessSevere | src/Logger.php:84-86 | the i-th level in severity order passes the j-th as minimum exactly when i >= j |
| Logging.DefaultDropsOnlyDebug | src/Logger.php:36 | under the default minimum "info", debug is dropped and every other level is dispatched |
| Logging.WarningMinimum | tests/Logger/LoggerTest.php:162-178 | with minimum warning, debug, info and notice are dropped; warning, error, critical, alert and emergency are dispatched |
| Logging.UnknownMinimumDropsNothing | src/Logger.php:84 | a minimum that is not a level name (which setLevel accepts) lets every valid level through |
| Logging.DispatchedRecord | src/Logger.php:88-112 | the record's level is the argument and its time, reqid and IPs come from the request; host is "cli" on the command line, else the server host; a string message is exactly the normalized input, any other is its encoding; the keys are in source order |
| Records.ToArray | src/Logger.php:104-112 | the array's keys are time, level, host, reqid, server_ip, client_ip, message in that order; each key holds the record's matching field |
| Records.ToArrayInjective | src/Logger.php:104-112 | the array loses no field: distinct records give distinct arrays |
| Logging.MinRank | src/Logger.php:84 | a known minimum ranks as in the table; an unknown one (read as null) ranks below debug, the lowest level |
| Logging.Dropped | src/Logger.php:84 | a known level is dropped exactly when the minimum is a level name of higher rank; an unknown minimum drops nothing |
| Logging.Host | src/Logger.php:91 | host is "cli" on the command line, otherwise the server host |
| Logging.MakeRecord | src/Logger.php:88-112 | the record holds the level as given, the host rule, the request's time, reqid and IPs, and the message text |
| Logging.Decide | src/Logger.php:80-112 | a call is rejected iff its level is unknown; it is dropped iff both names are known and the level's rank is lower; otherwise the record is built from the inputs |
| Logging.LevelSetting.constructor | src/Logger.php:36 | the process-wide minimum starts as "info" |
| Logging.LevelSetting.SetLevel | src/Logger.php:73-76 | the shared minimum is replaced by the argument, which is not checked |
| Logging.Logger.constructor | src/Logger.php:54 | a new logger reads the shared minimum as it stands and has no handler |
| Logging.Logger.SetHandler | src/Logger.php:62-65 | the handler is replaced and the shared minimum level is unchanged |
| Logging.Logger.Log | src/Logger.php:78-115 | InvalidArgument and no output for an unknown level; success and no output for a dropped one; otherwise the handler receives exactly this record once and the world changes as one write of its line; a missing handler or a failed write is an error with no output |
| Logging.DebugDroppedByDefault | src/Logger.php:36-86 | under the default minimum, a debug call leaves the files and streams as they were |
| Logging.SharedMinimumAfterSetLevel | src/Logger.php:73-86 | after setLevel, a logger created before and one created after both write debug records; two such writes to one file leave only the second record's line, and the streams are untouched |
| StreamHandlers.StreamHandler.constructor | src/Handler/StreamHandler.php:15 | a new handler's destination is the empty string |
| StreamHandlers.StreamHandler.SetFilename | src/Handler/StreamHandler.php:41-44 | the destination is replaced and nothing else changes |
| StreamHandlers.StreamHandler.Write | src/Handler/StreamHandler.php:17-33 | the record is received once; the files and streams change exactly as one delivery of its line to the current destination; the destination is unchanged |
| StreamHandlers.Io.WriteStdout | src/Handler/StreamHandler.php:25 | the content is appended to standard output; nothing else changes |
| StreamHandlers.Io.WriteStderr | src/Handler/StreamHandler.php:27 | the content is appended to standard error; nothing else changes |
| StreamHandlers.Io.OpenAndWrite | src/Handler/StreamHandler.php:29-31 | opening in wb mode leaves a plain file holding exactly the content; a stream name appends to that stream; an empty name fails and changes nothing |
| StreamHandlers.Line | src/Handler/StreamHandler.php:19-22 | the written line is the record's encoding followed by exactly one newline |
| StreamHandlers.StdoutRouting | src/Handler/StreamHandler.php:24-25 | with STDOUT defined, php://stdout appends the line to stdout; files and stderr are untouched |
| StreamHandlers.StderrRouting | src/Handler/StreamHandler.php:26-27 | with STDERR defined, php://stderr appends the line to stderr; files and stdout are untouched |
| StreamHandlers.FileRouting | src/Handler/StreamHandler.php:28-32 | any other non-empty name is a file whose contents become exactly the line; earlier contents are discarded; the streams are untouched |
| StreamHandlers.EmptyFilenameFails | src/Handler/StreamHandler.php:29 | with the default empty destination the write fails and nothing is written |
| StreamHandlers.OpenForWriting | src/Handler/StreamHandler.php:29-31 | fopen in wb mode fails exactly for the empty name; a plain file then holds exactly the content; a stream name appends to that stream; nothing else changes |
| StreamHandlers.Deliver | src/Handler/StreamHandler.php:24-32 | the STDOUT/STDERR checks only choose the handle: for every name the world changes as fopen of that name would change it |
| StreamHandlers.LatestLineOnly | src/Handler/StreamHandler.php:29-31 | after any number of writes to a plain file, it holds only the last line, and the streams are unchanged (tests/Logger/LoggerTest.php:114-126 checks the same for the sibling StdoutHandler) |
| StreamHandlers.StdoutKeepsEveryLine | src/Handler/StreamHandler.php:24-25 | repeated writes to stdout append every line, in order |

## Left out

- The LoggerTrait methods `debug` … `emergency` come from psr/log, whose code is not part of this model. They forward to `log` with a fixed level.
- `FileHandler`, `StdoutHandler` and the handler interface are not part of this model, so `Logger`'s handler has the type `StreamHandler`.
- `Request::getInstance()` and its methods, and `date('c')`, are external context and clock. They are the `Request` parameter.
- The internals of `json_encode` are not modelled, including what JSON_PARTIAL_OUTPUT_ON_ERROR substitutes. It is a library call and is the `encode` parameter. Nothing is claimed about its output, except that the model assumes it is always a string (it can return `false`).
- Any other `fopen` or `fwrite` failure (permissions, a missing directory, a full disk) is not modelled, nor are php:// wrappers other than php://stdout and php://stderr.
- The `InstanceTrait` singleton lookup is plumbing and is left out.
- The `HANDLER_FILE` and `HANDLER_STDOUT` constants are unused and are left out.
- Logging.Logger.Log: the model takes no `$context` argument, because the source never reads it.
- Logging.Logger.Log: the model takes the level as a string. PHP's untyped `$level` could also be an int, null or an array, which are not handled here.
- Logging.MinRank: a host that turns PHP warnings into exceptions would abort on an unknown minimum instead of logging. Only PHP's default handling is modelled.
- Logging.MinRank: the E_WARNING that src/Logger.php:84 raises for an unknown minimum is output the model does not produce.
- Logging.Normalize: PHP strings are byte strings, but the model's `string` is a sequence of Unicode characters. So lengths count characters, and a message holding invalid UTF-8 cannot be represented. Normalization itself is unaffected, because CR and LF are single bytes.
- Floating-point message values are not modelled, nor are objects.
