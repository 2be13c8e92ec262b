/**
 * The stream handler: encodes a record as one JSON line and sends it to the
 * standard output stream, the standard error stream, or a file that is
 * reopened (and so truncated) for every record.
 */
module StreamHandlers {
  import opened Wrappers
  import opened Records

  /** The names that select the process's standard streams. */
  const STDOUT_PATH: string := "php://stdout"
  const STDERR_PATH: string := "php://stderr"

  /** Why a write could not be carried out. */
  datatype IoError = EmptyPath

  /**
   * What the handler can observe and change of the process: the file system as
   * a map from path to contents, the text sent so far to each standard stream,
   * and whether the STDOUT and STDERR constants are defined.
   */
  datatype World = World(
    files: map<string, string>,
    stdout: string,
    stderr: string,
    hasStdout: bool,
    hasStderr: bool)

  /** The line written for one record: its JSON encoding and one newline. */
  function Line(message: Record, encode: Value -> string): (line: string)
    ensures var json := encode(ToArray(message));
      |line| == |json| + 1 && line[..|json|] == json && line[|json|] == '\n'
  {
    encode(ToArray(message)) + "\n"
  }

  /**
   * fopen(path, 'wb'), one fwrite of `content`, fclose. A plain file is
   * truncated, so it holds exactly `content` afterwards; the stream names
   * open a new handle on the stream, which appends; the empty name cannot be opened.
   */
  function OpenForWriting(w: World, path: string, content: string): (r: Result<World, IoError>)
    ensures r.Err? <==> path == ""
    ensures r.Ok? ==> r.value.hasStdout == w.hasStdout && r.value.hasStderr == w.hasStderr
    ensures r.Ok? && path == STDOUT_PATH ==>
      r.value.files == w.files && r.value.stdout == w.stdout + content && r.value.stderr == w.stderr
    ensures r.Ok? && path == STDERR_PATH ==>
      r.value.files == w.files && r.value.stdout == w.stdout && r.value.stderr == w.stderr + content
    ensures r.Ok? && path != STDOUT_PATH && path != STDERR_PATH ==>
      r.value.files == w.files[path := content] && r.value.stdout == w.stdout && r.value.stderr == w.stderr
  {
    if path == "" then Err(EmptyPath)
    else if path == STDOUT_PATH then Ok(w.(stdout := w.stdout + content))
    else if path == STDERR_PATH then Ok(w.(stderr := w.stderr + content))
    else Ok(w.(files := w.files[path := content]))
  }

  /** The effect of StreamHandler::write with destination `filename` on the world. */
  function Deliver(w: World, filename: string, content: string): (r: Result<World, IoError>)
    // Whether STDOUT or STDERR is defined only chooses the handle: the bytes
    // reach the same place as when the name is opened with fopen.
    ensures r == OpenForWriting(w, filename, content)
  {
    if filename == STDOUT_PATH && w.hasStdout then Ok(w.(stdout := w.stdout + content))
    else if filename == STDERR_PATH && w.hasStderr then Ok(w.(stderr := w.stderr + content))
    else OpenForWriting(w, filename, content)
  }

  /** The world consisting of this process's files and streams. */
  class Io {
    var files: map<string, string>
    var stdout: string
    var stderr: string
    const hasStdout: bool
    const hasStderr: bool

    constructor (files: map<string, string>, hasStdout: bool, hasStderr: bool)
      ensures State() == World(files, "", "", hasStdout, hasStderr)
    {
      this.files := files;
      this.stdout := "";
      this.stderr := "";
      this.hasStdout := hasStdout;
      this.hasStderr := hasStderr;
    }

    function State(): (w: World)
      reads this
    {
      World(files, stdout, stderr, hasStdout, hasStderr)
    }

    /** Appends to the stream behind the STDOUT constant. */
    method WriteStdout(content: string)
      modifies this
      ensures State() == old(State()).(stdout := old(stdout) + content)
    {
      stdout := stdout + content;
    }

    /** Appends to the stream behind the STDERR constant. */
    method WriteStderr(content: string)
      modifies this
      ensures State() == old(State()).(stderr := old(stderr) + content)
    {
      stderr := stderr + content;
    }

    /** Opens `path` in 'wb' mode, writes `content` once and closes it. */
    method OpenAndWrite(path: string, content: string) returns (r: Result<(), IoError>)
      modifies this
      ensures var o := OpenForWriting(old(State()), path, content);
        (o.Ok? ==> r == Ok(()) && State() == o.value) &&
        (o.Err? ==> r == Err(o.error) && State() == old(State()))
    {
      if path == "" {
        return Err(EmptyPath);
      } else if path == STDOUT_PATH {
        stdout := stdout + content;
      } else if path == STDERR_PATH {
        stderr := stderr + content;
      } else {
        files := files[path := content];
      }
      return Ok(());
    }
  }

  class StreamHandler {
    /** The destination: a stream name or a file path. */
    var filename: string
    /** Every record this handler was asked to write, oldest first. */
    ghost var Received: seq<Record>

    constructor ()
      ensures filename == "" && Received == []
    {
      filename := "";
      Received := [];
    }

    /** Replaces the destination; nothing else changes. */
    method SetFilename(filename: string)
      modifies this`filename
      ensures this.filename == filename
      ensures Received == old(Received)
    {
      this.filename := filename;
    }

    /** Writes the JSON line of `message` to the destination, in one write. */
    method Write(message: Record, encode: Value -> string, io: Io) returns (r: Result<(), IoError>)
      modifies this`Received, io
      ensures filename == old(filename)
      ensures Received == old(Received) + [message]
      ensures var d := Deliver(old(io.State()), filename, Line(message, encode));
        (d.Ok? ==> r == Ok(()) && io.State() == d.value) &&
        (d.Err? ==> r == Err(d.error) && io.State() == old(io.State()))
    {
      Received := Received + [message];
      var content := Line(message, encode);
      if filename == STDOUT_PATH && io.hasStdout {
        io.WriteStdout(content);
        r := Ok(());
      } else if filename == STDERR_PATH && io.hasStderr {
        io.WriteStderr(content);
        r := Ok(());
      } else {
        r := io.OpenAndWrite(filename, content);
      }
    }
  }

  /** With STDOUT defined, the stdout name appends the line to stdout and touches nothing else. */
  lemma StdoutRouting(w: World, content: string)
    requires w.hasStdout
    ensures Deliver(w, STDOUT_PATH, content) == Ok(w.(stdout := w.stdout + content))
  {
  }

  /** With STDERR defined, the stderr name appends the line to stderr and touches nothing else. */
  lemma StderrRouting(w: World, content: string)
    requires w.hasStderr
    ensures Deliver(w, STDERR_PATH, content) == Ok(w.(stderr := w.stderr + content))
  {
  }

  /** Any other non-empty name is a file that afterwards holds exactly this line; the streams are untouched. */
  lemma FileRouting(w: World, filename: string, content: string)
    requires filename != "" && filename != STDOUT_PATH && filename != STDERR_PATH
    ensures Deliver(w, filename, content) == Ok(w.(files := w.files[filename := content]))
  {
  }

  /** The default, empty destination cannot be opened, and nothing is written. */
  lemma EmptyFilenameFails(w: World, content: string)
    ensures Deliver(w, "", content) == Err(EmptyPath)
  {
  }

  /** The world after writing the lines `contents` one after another to `filename`. */
  function DeliverAll(w: World, filename: string, contents: seq<string>): (r: Result<World, IoError>)
    decreases |contents|
  {
    if contents == [] then Ok(w)
    else
      match Deliver(w, filename, contents[0])
      case Err(e) => Err(e)
      case Ok(w') => DeliverAll(w', filename, contents[1..])
  }

  /**
   * After any number of writes to a plain file, the file holds only the last
   * line, and the standard streams are unchanged.
   */
  lemma {:induction false} LatestLineOnly(w: World, filename: string, contents: seq<string>)
    requires filename != "" && filename != STDOUT_PATH && filename != STDERR_PATH
    requires contents != []
    decreases |contents|
    ensures var d := DeliverAll(w, filename, contents);
      d.Ok? && d.value.files == w.files[filename := contents[|contents| - 1]]
      && d.value.stdout == w.stdout && d.value.stderr == w.stderr
  {
    var w' := w.(files := w.files[filename := contents[0]]);
    FileRouting(w, filename, contents[0]);
    if |contents| > 1 {
      LatestLineOnly(w', filename, contents[1..]);
      assert contents[1..][|contents[1..]| - 1] == contents[|contents| - 1];
      assert w'.files[filename := contents[|contents| - 1]] == w.files[filename := contents[|contents| - 1]];
    } else {
      assert DeliverAll(w', filename, contents[1..]) == Ok(w');
    }
  }

  /** The lines `contents` joined one after another. */
  function Concat(contents: seq<string>): (text: string)
  {
    if contents == [] then "" else contents[0] + Concat(contents[1..])
  }

  /** Writing to stdout many times appends every line, in order. */
  lemma {:induction false} StdoutKeepsEveryLine(w: World, contents: seq<string>)
    requires w.hasStdout
    decreases |contents|
    ensures var d := DeliverAll(w, STDOUT_PATH, contents);
      d.Ok? && d.value == w.(stdout := w.stdout + Concat(contents))
  {
    if contents != [] {
      var w' := w.(stdout := w.stdout + contents[0]);
      StdoutKeepsEveryLine(w', contents[1..]);
      assert w.stdout + contents[0] + Concat(contents[1..]) == w.stdout + Concat(contents);
    }
  }
}
