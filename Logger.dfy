/**
 * The logger: checks the level name, drops records below the configured
 * minimum, rewrites string messages to one line, builds the record from the
 * request context and hands it to the current handler in one write.
 */
module Logging {
  import opened Wrappers
  import opened Records
  import StreamHandlers

  /** The eight level names, from least to most severe. */
  const LEVEL_NAMES: seq<string> :=
    ["debug", "info", "notice", "warning", "error", "critical", "alert", "emergency"]

  /** The rank of each accepted level name. */
  const LEVELS: map<string, nat> := map[
    "debug" := 0x0000_0001,
    "info" := 0x0000_0010,
    "notice" := 0x0000_0100,
    "warning" := 0x0000_1000,
    "error" := 0x0001_0000,
    "critical" := 0x0010_0000,
    "alert" := 0x0100_0000,
    "emergency" := 0x1000_0000]

  /** The minimum level in force until it is changed. */
  const DEFAULT_LEVEL: string := "info"

  /** Exactly the eight names are accepted, and their ranks strictly increase with severity. */
  lemma RanksStrictlyIncrease()
    ensures LEVELS.Keys == set name | name in LEVEL_NAMES
    ensures |LEVEL_NAMES| == 8
    ensures forall i, j | 0 <= i < j < |LEVEL_NAMES| ::
      LEVEL_NAMES[i] in LEVELS && LEVEL_NAMES[j] in LEVELS && LEVELS[LEVEL_NAMES[i]] < LEVELS[LEVEL_NAMES[j]]
  {
  }

  /**
   * The rank the configured minimum is compared against. An unknown minimum
   * reads as null, and an int compared with null compares as booleans, so no
   * level is below it: that is the rank 0, below every real rank.
   */
  function MinRank(minLevel: string): (rank: nat)
    ensures minLevel in LEVELS ==> rank == LEVELS[minLevel]
    ensures minLevel !in LEVELS ==> rank < LEVELS[LEVEL_NAMES[0]]
  {
    if minLevel in LEVELS then LEVELS[minLevel] else 0
  }

  /** A level is dropped when its rank is below the minimum's; an unknown minimum drops nothing. */
  predicate Dropped(level: string, minLevel: string): (dropped: bool)
    requires level in LEVELS
    ensures dropped <==> minLevel in LEVELS && LEVELS[level] < LEVELS[minLevel]
  {
    LEVELS[level] < MinRank(minLevel)
  }

  /** str_replace(["\r", "\n"], ' ', ...) on one character. */
  function NormalizeChar(c: char): char
  {
    if c == '\r' || c == '\n' then ' ' else c
  }

  /** Replaces every carriage return and line feed with a space. */
  function Normalize(s: string): (r: string)
    ensures |r| == |s|
    ensures forall i | 0 <= i < |r| :: r[i] != '\r' && r[i] != '\n'
    ensures forall i | 0 <= i < |s| :: (s[i] == '\r' || s[i] == '\n') ==> r[i] == ' '
    ensures forall i | 0 <= i < |s| :: s[i] != '\r' && s[i] != '\n' ==> r[i] == s[i]
  {
    if s == [] then [] else [NormalizeChar(s[0])] + Normalize(s[1..])
  }

  /** A string without line breaks is left as it is. */
  lemma NormalizeSingleLine(s: string)
    requires forall i | 0 <= i < |s| :: s[i] != '\r' && s[i] != '\n'
    ensures Normalize(s) == s
  {
  }

  /** Normalizing twice is the same as normalizing once. */
  lemma NormalizeIdempotent(s: string)
    ensures Normalize(Normalize(s)) == Normalize(s)
  {
  }

  /** The request-scoped inputs of a log call: the clock and the request context. */
  datatype Request = Request(
    time: string,
    requestId: string,
    isCli: bool,
    serverHost: string,
    serverIp: string,
    clientIp: string)

  /** "cli" from the command line, otherwise the server's host name. */
  function Host(request: Request): (host: string)
    ensures request.isCli ==> host == "cli"
    ensures !request.isCli ==> host == request.serverHost
  {
    if request.isCli then "cli" else request.serverHost
  }

  /** The message as it goes into the record: line breaks replaced if a string, JSON-encoded otherwise. */
  function MessageText(message: Value, encode: Value -> string): (text: string)
    ensures message.Str? ==> |text| == |message.s|
    ensures message.Str? ==> forall i | 0 <= i < |text| :: text[i] == NormalizeChar(message.s[i])
    ensures !message.Str? ==> text == encode(message)
  {
    if message.Str? then Normalize(message.s) else encode(message)
  }

  /**
   * The record of an admitted call: the level as given, the host rule, the
   * request's clock and addresses, and the message text.
   */
  function MakeRecord(level: string, message: Value, request: Request, encode: Value -> string): (r: Record)
    ensures r.level == level
    ensures r.time == request.time && r.reqid == request.requestId
    ensures r.serverIp == request.serverIp && r.clientIp == request.clientIp
    ensures r.host == (if request.isCli then "cli" else request.serverHost)
    ensures r.message == MessageText(message, encode)
  {
    Record(request.time, level, Host(request), request.requestId,
           request.serverIp, request.clientIp, MessageText(message, encode))
  }

  /** What one log call does, given the minimum in force. */
  datatype Decision = Reject | Drop | Dispatch(record: Record)

  function Decide(minLevel: string, level: string, message: Value, request: Request, encode: Value -> string): (d: Decision)
    ensures d.Reject? <==> level !in LEVELS
    ensures d.Drop? <==> level in LEVELS && minLevel in LEVELS && LEVELS[level] < LEVELS[minLevel]
    ensures d.Dispatch? ==> d.record == MakeRecord(level, message, request, encode)
  {
    if level !in LEVELS then Reject
    else if Dropped(level, minLevel) then Drop
    else Dispatch(MakeRecord(level, message, request, encode))
  }

  /** An unknown level name is rejected, whatever the minimum. */
  lemma UnknownLevelRejected(minLevel: string, level: string, message: Value, request: Request, encode: Value -> string)
    ensures Decide(minLevel, level, message, request, encode) == Reject <==> level !in LEVELS
  {
  }

  /** A known level is written exactly when its rank is at least the minimum's. */
  lemma WrittenIffAtLeastMinimum(minLevel: string, level: string, message: Value, request: Request, encode: Value -> string)
    requires level in LEVELS && minLevel in LEVELS
    ensures Decide(minLevel, level, message, request, encode).Dispatch? <==> LEVELS[level] >= LEVELS[minLevel]
    ensures Decide(minLevel, level, message, request, encode).Drop? <==> LEVELS[level] < LEVELS[minLevel]
  {
  }

  /** In terms of the severity order: the i-th level passes minimum j exactly when i >= j. */
  lemma WrittenIffNotLessSevere(i: nat, j: nat, message: Value, request: Request, encode: Value -> string)
    requires i < |LEVEL_NAMES| && j < |LEVEL_NAMES|
    ensures Decide(LEVEL_NAMES[j], LEVEL_NAMES[i], message, request, encode).Dispatch? <==> i >= j
  {
  }

  /** With the minimum left at its default, debug is dropped and every other level written. */
  lemma DefaultDropsOnlyDebug(level: string, message: Value, request: Request, encode: Value -> string)
    requires level in LEVELS
    ensures Decide(DEFAULT_LEVEL, level, message, request, encode).Drop? <==> level == "debug"
  {
  }

  /** With minimum warning, debug, info and notice are dropped and the other five written. */
  lemma WarningMinimum(level: string, message: Value, request: Request, encode: Value -> string)
    requires level in LEVELS
    ensures Decide("warning", level, message, request, encode).Dispatch?
      <==> level in {"warning", "error", "critical", "alert", "emergency"}
  {
  }

  /** A minimum that is not a level name drops nothing. */
  lemma UnknownMinimumDropsNothing(minLevel: string, level: string, message: Value, request: Request, encode: Value -> string)
    requires minLevel !in LEVELS && level in LEVELS
    ensures Decide(minLevel, level, message, request, encode).Dispatch?
  {
  }

  /**
   * The dispatched record carries the level as given, the host rule, the request
   * fields, and a message that is one line of the same length when it was a string.
   */
  lemma DispatchedRecord(minLevel: string, level: string, message: Value, request: Request, encode: Value -> string)
    requires Decide(minLevel, level, message, request, encode).Dispatch?
    ensures var r := Decide(minLevel, level, message, request, encode).record;
      && r.level == level
      && r.time == request.time
      && r.reqid == request.requestId
      && r.serverIp == request.serverIp
      && r.clientIp == request.clientIp
      && (request.isCli ==> r.host == "cli")
      && (!request.isCli ==> r.host == request.serverHost)
      && (message.Str? ==> r.message == Normalize(message.s))
      && (!message.Str? ==> r.message == encode(message))
      && KeysOf(ToArray(r).entries) == RECORD_KEYS
  {
  }

  /** The errors a log call can raise. */
  datatype LogError =
    | InvalidArgument                            // the level is not one of the eight names
    | NoHandler                                  // no handler has been set
    | HandlerFailed(cause: StreamHandlers.IoError)

  /**
   * The minimum level: one setting for the whole process, shared by every
   * logger. It starts at the default when the process starts and is changed
   * only by SetLevel.
   */
  class LevelSetting {
    var level: string

    constructor ()
      ensures level == DEFAULT_LEVEL
    {
      level := DEFAULT_LEVEL;
    }

    /** Replaces the minimum level, without checking that it is a level name. */
    method SetLevel(level: string)
      modifies this
      ensures this.level == level
    {
      this.level := level;
    }
  }

  class Logger {
    /** The process-wide minimum level this logger reads on every call. */
    const setting: LevelSetting
    /** The handler records are written to; none until one is set. */
    var handler: StreamHandlers.StreamHandler?

    /** A logger reads the shared setting as it stands; it starts without a handler. */
    constructor (setting: LevelSetting)
      ensures this.setting == setting && handler == null
      ensures setting.level == old(setting.level)
    {
      this.setting := setting;
      handler := null;
    }

    /** Replaces the handler; the minimum level is unchanged. */
    method SetHandler(handler: StreamHandlers.StreamHandler)
      modifies this`handler
      ensures this.handler == handler && setting.level == old(setting.level)
    {
      this.handler := handler;
    }

    /**
     * Logs `message` at `level`: an error for an unknown level, nothing for a
     * dropped one, otherwise exactly one write of the record to the handler.
     */
    method Log(level: string, message: Value, request: Request, encode: Value -> string, io: StreamHandlers.Io)
      returns (r: Result<(), LogError>)
      modifies handler, io
      ensures setting.level == old(setting.level)
      ensures var d := Decide(setting.level, level, message, request, encode);
        && (d.Reject? ==> r == Err(InvalidArgument) && unchanged(io))
        && (d.Drop? ==> r == Ok(()) && unchanged(io))
        && (d.Dispatch? && handler == null ==> r == Err(NoHandler) && unchanged(io))
        && (!d.Dispatch? && handler != null ==> unchanged(handler))
        && (d.Dispatch? && handler != null ==>
              && handler.filename == old(handler.filename)
              && handler.Received == old(handler.Received) + [d.record]
              && var w := StreamHandlers.Deliver(old(io.State()), handler.filename,
                                                 StreamHandlers.Line(d.record, encode));
                 (w.Ok? ==> r == Ok(()) && io.State() == w.value) &&
                 (w.Err? ==> r == Err(HandlerFailed(w.error)) && io.State() == old(io.State())))
    {
      if level !in LEVELS {
        return Err(InvalidArgument);
      }
      if LEVELS[level] < MinRank(setting.level) {
        return Ok(());
      }
      var record := MakeRecord(level, message, request, encode);
      if handler == null {
        return Err(NoHandler);
      }
      var written := handler.Write(record, encode, io);
      if written.Err? {
        return Err(HandlerFailed(written.error));
      }
      return Ok(());
    }
  }

  /** A client of the contracts above: under the default minimum a debug call writes nothing. */
  method DebugDroppedByDefault(path: string, message: Value, request: Request,
                               encode: Value -> string, io: StreamHandlers.Io)
    modifies io
    ensures io.State() == old(io.State())
  {
    var setting := new LevelSetting();
    var handler := new StreamHandlers.StreamHandler();
    handler.SetFilename(path);
    var logger := new Logger(setting);
    logger.SetHandler(handler);
    assert Decide(setting.level, "debug", message, request, encode).Drop?;
    var r := logger.Log("debug", message, request, encode, io);
  }

  /**
   * A client of the contracts above: once the shared minimum is lowered, the
   * logger created before and the one created after both see it, and two
   * debug calls to the same file leave only the second record's line in it.
   */
  method SharedMinimumAfterSetLevel(path: string, first: Value, second: Value, request: Request,
                                    encode: Value -> string, io: StreamHandlers.Io)
    requires path != "" && path != StreamHandlers.STDOUT_PATH && path != StreamHandlers.STDERR_PATH
    modifies io
    ensures io.files == old(io.files)[path :=
      StreamHandlers.Line(MakeRecord("debug", second, request, encode), encode)]
    ensures io.stdout == old(io.stdout) && io.stderr == old(io.stderr)
  {
    var setting := new LevelSetting();
    var handler := new StreamHandlers.StreamHandler();
    handler.SetFilename(path);
    var early := new Logger(setting);
    early.SetHandler(handler);
    setting.SetLevel("debug");
    var late := new Logger(setting);
    late.SetHandler(handler);
    ghost var recordA := MakeRecord("debug", first, request, encode);
    ghost var recordB := MakeRecord("debug", second, request, encode);
    assert setting.level == "debug" && early.handler == handler && late.handler == handler;
    ghost var before := io.State();
    var r := late.Log("debug", first, request, encode, io);
    assert Decide("debug", "debug", first, request, encode) == Dispatch(recordA);
    StreamHandlers.FileRouting(before, path, StreamHandlers.Line(recordA, encode));
    assert setting.level == "debug" && early.handler == handler;
    before := io.State();
    r := early.Log("debug", second, request, encode, io);
    assert Decide("debug", "debug", second, request, encode) == Dispatch(recordB);
    StreamHandlers.FileRouting(before, path, StreamHandlers.Line(recordB, encode));
    assert handler.Received == [recordA, recordB];
  }
}
