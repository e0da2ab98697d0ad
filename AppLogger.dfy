/** The in-memory log: a text buffer kept to its last `MAX_LOG_LINES`
    lines, with lines counted the way Java's `String.split("\n")` counts
    them. */
module Logging {
  import opened JavaRuntime

  const MAX_LOG_LINES: int := 100
  const INIT_MESSAGE: string := "********** AppLogger init ********** "

  predicate NoNewline(s: string) {
    forall i :: 0 <= i < |s| ==> s[i] != '\n'
  }

  predicate NoNewlines(lines: seq<string>) {
    forall i :: 0 <= i < |lines| ==> NoNewline(lines[i])
  }

  function Last<T>(s: seq<T>): T
    requires |s| > 0
  {
    s[|s| - 1]
  }

  /** Every piece of `s` between newlines, empty ones included: one more
      piece than there are newlines. */
  function Pieces(s: string): (r: seq<string>)
    ensures |r| >= 1 && NoNewlines(r)
  {
    if s == [] then [""]
    else if s[0] == '\n' then [""] + Pieces(s[1..])
    else
      var rest := Pieces(s[1..]);
      [[s[0]] + rest[0]] + rest[1..]
  }

  /** Removes the empty strings at the end of `r`. */
  function DropTrailingEmpty(r: seq<string>): (d: seq<string>)
    ensures d <= r
    ensures d == [] || Last(d) != ""
    ensures forall i :: |d| <= i < |r| ==> r[i] == ""
  {
    if r != [] && Last(r) == "" then DropTrailingEmpty(r[..|r| - 1]) else r
  }

  /** `s.split("\n")`: the pieces between newlines with the empty ones at
      the end removed; a string without any newline, the empty string
      included, is returned whole. */
  function JavaSplit(s: string): (r: seq<string>)
    ensures NoNewlines(r)
    ensures r == [""] || r == [] || Last(r) != ""
  {
    if s == "" then [""] else DropTrailingEmpty(Pieces(s))
  }

  /** The number of lines of a buffer, as `limitBufferSize` counts them. */
  function LineCount(s: string): int {
    |JavaSplit(s)|
  }

  /** Each line followed by a newline, as a `StringBuilder` loop appends
      `line` and then `"\n"`. */
  function JoinLines(lines: seq<string>): string {
    if lines == [] then "" else JoinLines(lines[..|lines| - 1]) + Last(lines) + "\n"
  }

  /** The text one `log` call appends. */
  function Entry(timestamp: string, message: string): (r: string)
    ensures |r| >= 4 && r[0] == '[' && r[|r| - 1] == '\n'
  {
    "[" + timestamp + "] " + message + "\n"
  }

  /** The buffer after `limitBufferSize`. */
  function Trimmed(s: string): string {
    var lines := JavaSplit(s);
    if |lines| > MAX_LOG_LINES then JoinLines(lines[|lines| - MAX_LOG_LINES..]) else s
  }

  /** What the log file holds, as `readLogs` finds it. */
  datatype LogFile =
    | Absent
    | Readable(lines: seq<string>)
    | Unreadable(linesRead: seq<string>, message: Option<string>)  // an IOException after `linesRead`

  /** The text `readLogs` rebuilds from the file: each line read and a
      newline; on an IOException, the lines read so far and the error. */
  function FileText(file: LogFile): string {
    match file
    case Absent => ""
    case Readable(lines) => JoinLines(lines)
    case Unreadable(lines, message) => JoinLines(lines) + "Error reading logs: " + StringOf(message)
  }

  lemma PiecesCons(c: char, s: string)
    ensures Pieces([c] + s) ==
      if c == '\n' then [""] + Pieces(s) else [[c] + Pieces(s)[0]] + Pieces(s)[1..]
  {
    assert ([c] + s)[0] == c;
    assert ([c] + s)[1..] == s;
  }

  lemma {:induction false} PiecesOfLine(l: string)
    requires NoNewline(l)
    ensures Pieces(l) == [l]
  {
    if l != [] {
      assert l == [l[0]] + l[1..];
      assert NoNewline(l[1..]) by {
        forall i | 0 <= i < |l[1..]| ensures l[1..][i] != '\n' {
          assert l[1..][i] == l[i + 1];
        }
      }
      PiecesOfLine(l[1..]);
      PiecesCons(l[0], l[1..]);
    }
  }

  /** The sequence step of `PiecesAppend` when `x` starts with a newline. */
  lemma JoinPiecesAfterNewline(a: seq<string>, b: seq<string>)
    requires |a| >= 1 && |b| >= 1
    ensures var px := [""] + a;
      [""] + (a[..|a| - 1] + [Last(a) + b[0]] + b[1..]) == px[..|px| - 1] + [Last(px) + b[0]] + b[1..]
  {
    var px := [""] + a;
    assert px[..|px| - 1] == [""] + a[..|a| - 1];
    assert Last(px) == Last(a);
  }

  /** The sequence step of `PiecesAppend` when `x` starts with another
      character `c`. */
  lemma JoinPiecesAfterChar(c: char, a: seq<string>, b: seq<string>)
    requires |a| >= 1 && |b| >= 1
    ensures var r := a[..|a| - 1] + [Last(a) + b[0]] + b[1..];
      var px := [[c] + a[0]] + a[1..];
      [[c] + r[0]] + r[1..] == px[..|px| - 1] + [Last(px) + b[0]] + b[1..]
  {
    var r := a[..|a| - 1] + [Last(a) + b[0]] + b[1..];
    var px := [[c] + a[0]] + a[1..];
    if |a| == 1 {
      assert r == [a[0] + b[0]] + b[1..];
      assert px == [[c] + a[0]];
      assert [c] + (a[0] + b[0]) == ([c] + a[0]) + b[0];
    } else {
      assert r[0] == a[0];
      assert r[1..] == a[1..|a| - 1] + [Last(a) + b[0]] + b[1..];
      assert px[..|px| - 1] == [[c] + a[0]] + a[1..|a| - 1];
      assert Last(px) == Last(a);
    }
  }

  /** The pieces of `x + y`: the last piece of `x` runs into the first
      piece of `y`. */
  lemma {:induction false} PiecesAppend(x: string, y: string)
    ensures var px, py := Pieces(x), Pieces(y);
      Pieces(x + y) == px[..|px| - 1] + [Last(px) + py[0]] + py[1..]
  {
    var px, py := Pieces(x), Pieces(y);
    if x == [] {
      assert x + y == y;
      assert "" + py[0] == py[0];
      assert py == [py[0]] + py[1..];
    } else {
      var c, x' := x[0], x[1..];
      assert x == [c] + x';
      assert x + y == [c] + (x' + y);
      PiecesCons(c, x');
      PiecesCons(c, x' + y);
      PiecesAppend(x', y);
      if c == '\n' {
        JoinPiecesAfterNewline(Pieces(x'), py);
      } else {
        JoinPiecesAfterChar(c, Pieces(x'), py);
      }
    }
  }

  lemma PiecesOfNewline()
    ensures Pieces("\n") == ["", ""]
  {
    PiecesCons('\n', "");
    assert ['\n'] + "" == "\n";
  }

  lemma PiecesOfLineThenNewline(l: string)
    requires NoNewline(l)
    ensures Pieces(l + "\n") == [l, ""]
  {
    PiecesAppend(l, "\n");
    PiecesOfLine(l);
    PiecesOfNewline();
    assert l + "" == l;
  }

  /** Splitting joined lines gives back the lines and one empty piece after
      the final newline. */
  lemma {:induction false} PiecesOfJoin(lines: seq<string>)
    requires NoNewlines(lines)
    ensures Pieces(JoinLines(lines)) == lines + [""]
  {
    if lines != [] {
      var init, l := lines[..|lines| - 1], Last(lines);
      PiecesOfLineThenNewline(l);
      assert JoinLines(lines) == JoinLines(init) + (l + "\n");
      assert NoNewlines(init) by {
        forall i | 0 <= i < |init| ensures NoNewline(init[i]) {
          assert init[i] == lines[i];
        }
      }
      PiecesOfJoin(init);
      PiecesAppend(JoinLines(init), l + "\n");
      var pi := init + [""];
      assert pi[..|pi| - 1] == init;
      assert "" + l == l;
      assert lines == init + [l];
    }
  }

  lemma {:induction false} JoinLinesEmptyOnlyForNoLines(lines: seq<string>)
    ensures JoinLines(lines) == "" <==> lines == []
  {
    if lines != [] {
      assert |JoinLines(lines)| >= 1;
    }
  }

  /** Splitting joined lines keeps every line, empty ones between others
      included, and loses only the empty lines at the end. */
  lemma JavaSplitOfJoin(lines: seq<string>)
    requires NoNewlines(lines) && lines != []
    ensures JavaSplit(JoinLines(lines)) == DropTrailingEmpty(lines)
  {
    JoinLinesEmptyOnlyForNoLines(lines);
    PiecesOfJoin(lines);
    var p := lines + [""];
    assert p[..|p| - 1] == lines;
  }

  /** `split` undoes the joining of lines that hold no newline and do not
      end in an empty line. */
  lemma JavaSplitOfJoinRoundTrip(lines: seq<string>)
    requires NoNewlines(lines) && lines != [] && Last(lines) != ""
    ensures JavaSplit(JoinLines(lines)) == lines
  {
    JavaSplitOfJoin(lines);
  }

  lemma {:induction false} JoinLinesAppend(lines: seq<string>, l: string)
    ensures JoinLines(lines + [l]) == JoinLines(lines) + l + "\n"
  {
    assert (lines + [l])[..|lines|] == lines;
  }

  /** Trimming leaves a buffer of at most `MAX_LOG_LINES` lines alone and
      otherwise keeps the last `MAX_LOG_LINES` lines in order, each
      followed by a newline; either way at most `MAX_LOG_LINES` remain. */
  lemma TrimmedKeepsLastLines(s: string)
    ensures LineCount(s) <= MAX_LOG_LINES ==> Trimmed(s) == s
    ensures LineCount(s) > MAX_LOG_LINES ==>
      var lines := JavaSplit(s);
      var kept := lines[|lines| - MAX_LOG_LINES..];
      Trimmed(s) == JoinLines(kept) && JavaSplit(Trimmed(s)) == kept
    ensures LineCount(Trimmed(s)) <= MAX_LOG_LINES
  {
    var lines := JavaSplit(s);
    if |lines| > MAX_LOG_LINES {
      var kept := lines[|lines| - MAX_LOG_LINES..];
      assert Trimmed(s) == JoinLines(kept);
      assert Last(kept) == Last(lines) != "";
      assert NoNewlines(kept) by {
        forall i | 0 <= i < |kept| ensures NoNewline(kept[i]) {
          assert kept[i] == lines[i + |lines| - MAX_LOG_LINES];
        }
      }
      JavaSplitOfJoinRoundTrip(kept);
    }
  }

  lemma TrimmedWithinBound(s: string)
    ensures LineCount(Trimmed(s)) <= MAX_LOG_LINES
  {
    TrimmedKeepsLastLines(s);
  }

  /** An empty buffer holds one (empty) line. */
  lemma LineCountOfEmpty()
    ensures LineCount("") == 1
  {
  }

  /** `n` empty lines. */
  function EmptyLines(n: nat): seq<string> {
    seq(n, _ => "")
  }

  lemma {:induction false} JoinEmptyLines(n: nat)
    ensures JoinLines(EmptyLines(n)) == seq(n, _ => '\n')
  {
    if n > 0 {
      assert EmptyLines(n)[..n - 1] == EmptyLines(n - 1);
      JoinEmptyLines(n - 1);
      assert seq(n - 1, _ => '\n') + "" + "\n" == seq(n, _ => '\n');
    }
  }

  /** Empty strings appended after a last line that is not empty are all
      that `DropTrailingEmpty` removes. */
  lemma {:induction false} DropTrailingEmptyLines(lines: seq<string>, k: nat)
    requires lines == [] || Last(lines) != ""
    ensures DropTrailingEmpty(lines + EmptyLines(k)) == lines
  {
    if k == 0 {
      assert lines + EmptyLines(0) == lines;
    } else {
      var s := lines + EmptyLines(k);
      assert Last(s) == "";
      assert s[..|s| - 1] == lines + EmptyLines(k - 1);
      DropTrailingEmptyLines(lines, k - 1);
    }
  }

  /** A buffer of one or more newlines and nothing else holds no line. */
  lemma LineCountOfNewlines(n: nat)
    requires n >= 1
    ensures LineCount(seq(n, _ => '\n')) == 0
  {
    var empties := EmptyLines(n);
    JoinEmptyLines(n);
    assert NoNewlines(empties);
    JavaSplitOfJoin(empties);
    assert [] + empties == empties;
    DropTrailingEmptyLines([], n);
  }

  /** Lines ending in a nonempty one and followed by any number of empty
      lines count as themselves: empty lines between others count, the
      empty lines at the end do not. */
  lemma LineCountKeepsInnerEmpty(lines: seq<string>, k: nat)
    requires NoNewlines(lines) && lines != [] && Last(lines) != ""
    ensures LineCount(JoinLines(lines + EmptyLines(k))) == |lines|
  {
    var all := lines + EmptyLines(k);
    assert NoNewlines(all) by {
      forall i | 0 <= i < |all| ensures NoNewline(all[i]) {
        if i < |lines| {
          assert all[i] == lines[i];
        }
      }
    }
    JavaSplitOfJoin(all);
    DropTrailingEmptyLines(lines, k);
  }

  /** The line an entry adds, without its newline, holds no newline. */
  lemma EntryLineNoNewline(timestamp: string, message: string)
    requires NoNewline(timestamp) && NoNewline(message)
    ensures NoNewline("[" + timestamp + "] " + message)
  {
    var line := "[" + timestamp + "] " + message;
    forall i | 0 <= i < |line| ensures line[i] != '\n' {
      if i >= 1 + |timestamp| + 2 {
        assert line[i] == message[i - 1 - |timestamp| - 2];
      } else if i >= 1 && i < 1 + |timestamp| {
        assert line[i] == timestamp[i - 1];
      }
    }
  }

  /** Appending a nonempty line and a newline to text that is empty or
      ends a line makes that line the last one `split` finds. */
  lemma SplitEndsWithLine(buffer: string, line: string)
    requires buffer == "" || Last(buffer) == '\n'
    requires NoNewline(line) && line != ""
    ensures var lines := JavaSplit(buffer + (line + "\n"));
      |lines| > 0 && Last(lines) == line
  {
    var s := buffer + (line + "\n");
    PiecesOfLineThenNewline(line);
    PiecesAppend(buffer, line + "\n");
    var pb := Pieces(buffer);
    if buffer != "" {
      var b0 := buffer[..|buffer| - 1];
      assert buffer == b0 + "\n";
      PiecesAppend(b0, "\n");
      PiecesOfNewline();
      assert Last(pb) == "";
    }
    var p := Pieces(s);
    var pl := [line, ""];
    assert pl[0] == line && pl[1..] == [""];
    assert "" + line == line;
    assert p == pb[..|pb| - 1] + [line] + [""];
    assert p[..|p| - 1] == pb[..|pb| - 1] + [line];
    assert DropTrailingEmpty(p) == p[..|p| - 1];
    assert s != "";
  }

  /** When the buffer is empty or ends a line, the last line after `log`
      is the new entry, trimmed or not. */
  lemma LogEndsWithEntry(buffer: string, timestamp: string, message: string)
    requires buffer == "" || Last(buffer) == '\n'
    requires NoNewline(timestamp) && NoNewline(message)
    ensures var lines := JavaSplit(Trimmed(buffer + Entry(timestamp, message)));
      |lines| > 0 && Last(lines) == "[" + timestamp + "] " + message
  {
    var line := "[" + timestamp + "] " + message;
    EntryLineNoNewline(timestamp, message);
    var s := buffer + Entry(timestamp, message);
    assert s == buffer + (line + "\n");
    SplitEndsWithLine(buffer, line);
    TrimmedKeepsLastLines(s);
  }

  /** Rebuilding a well-formed log file and splitting it again gives its
      lines back. */
  lemma FileTextSplits(lines: seq<string>)
    requires NoNewlines(lines) && lines != [] && Last(lines) != ""
    ensures JavaSplit(FileText(Readable(lines))) == lines
  {
    JavaSplitOfJoinRoundTrip(lines);
  }

  /** A `StringBuilder` loop appending each line and then a newline. */
  method AppendLines(lines: seq<string>) returns (text: string)
    ensures text == JoinLines(lines)
  {
    text := "";
    var i := 0;
    while i < |lines|
      invariant 0 <= i <= |lines|
      invariant text == JoinLines(lines[..i])
    {
      JoinLinesAppend(lines[..i], lines[i]);
      assert lines[..i + 1] == lines[..i] + [lines[i]];
      text := text + lines[i] + "\n";
      i := i + 1;
    }
    assert lines[..i] == lines;
  }

  /** The logger. `hasContext` says whether it was built with a context;
      the file operations need one. */
  class AppLogger {
    var logBuffer: string
    const hasContext: bool

    /** The bound every call that trims leaves the buffer within. The
        buffer can exceed it in between, as `init` loads the whole file
        before its first `log`. */
    ghost predicate Valid()
      reads this
    {
      LineCount(logBuffer) <= MAX_LOG_LINES
    }

    constructor (hasContext: bool)
      ensures this.hasContext == hasContext && logBuffer == ""
      ensures Valid()
    {
      this.hasContext := hasContext;
      logBuffer := "";
      assert JavaSplit("") == [""];
    }

    /** Appends one entry and trims. The text is also appended to the log
        file and shown in the log view; neither is part of this model. */
    method Log(message: string, timestamp: string)
      modifies this`logBuffer
      ensures logBuffer == Trimmed(old(logBuffer) + Entry(timestamp, message))
      ensures Valid()
    {
      var logEntry := "[" + timestamp + "] " + message + "\n";
      logBuffer := logBuffer + logEntry;
      LimitBufferSize();
      TrimmedKeepsLastLines(old(logBuffer) + Entry(timestamp, message));
    }

    /** `log(Exception)`: the message and the stack trace as one entry. */
    method LogException(message: Option<string>, stackTrace: string, timestamp: string)
      modifies this`logBuffer
      ensures logBuffer == Trimmed(old(logBuffer) +
        Entry(timestamp, "Exception: " + StringOf(message) + "\nStack trace: " + stackTrace))
      ensures Valid()
    {
      Log("Exception: " + StringOf(message) + "\nStack trace: " + stackTrace, timestamp);
    }

    /** Empties the buffer whatever the flag. Deleting the file asks for it
        first, and without a context there is none: `exists()` is then
        called on null and throws. */
    method ClearLogTextView(deleteFileToo: bool) returns (outcome: Outcome)
      modifies this`logBuffer
      ensures logBuffer == "" && Valid()
      ensures outcome == if deleteFileToo && !hasContext then Threw(NullPointer) else Normal
    {
      logBuffer := "";
      assert JavaSplit("") == [""];
      if deleteFileToo && !hasContext {
        return Threw(NullPointer);
      }
      outcome := Normal;
    }

    /** Keeps the last `MAX_LOG_LINES` lines once there are more. */
    method LimitBufferSize()
      modifies this`logBuffer
      ensures logBuffer == Trimmed(old(logBuffer))
      ensures Valid()
    {
      TrimmedWithinBound(logBuffer);
      var lines := JavaSplit(logBuffer);
      if |lines| > MAX_LOG_LINES {
        var newBuffer := AppendLines(lines[|lines| - MAX_LOG_LINES..]);
        assert newBuffer == Trimmed(logBuffer);
        logBuffer := newBuffer;
      }
    }

    /** Rebuilds the log text from the file line by line; without a
        context there is no file and the text is empty. */
    method ReadLogs(file: LogFile) returns (sb: string)
      ensures sb == if hasContext then FileText(file) else ""
    {
      sb := "";
      if !hasContext || file.Absent? {
        return;
      }
      var lines := if file.Readable? then file.lines else file.linesRead;
      sb := AppendLines(lines);
      if file.Unreadable? {
        sb := sb + "Error reading logs: " + StringOf(file.message);
      }
    }
  }

  /** The static `instance` field of `AppLogger`. */
  class LoggerRegistry {
    var instance: AppLogger?

    constructor ()
      ensures instance == null
    {
      instance := null;
    }

    /** Returns the existing logger, creating one without a context only
        when there is none yet. */
    method GetInstance() returns (logger: AppLogger)
      modifies this
      ensures old(instance) != null ==> logger == old(instance)
      ensures old(instance) == null ==> fresh(logger) && !logger.hasContext && logger.logBuffer == ""
      ensures instance == logger
    {
      if instance == null {
        instance := new AppLogger(false);
      }
      logger := instance;
    }

    /** Always replaces the logger with one that has a context, loads the
        buffer from the file and logs the init line. */
    method Init(file: LogFile, timestamp: string)
      modifies this
      ensures instance != null && fresh(instance) && instance.hasContext
      ensures instance.logBuffer == Trimmed(FileText(file) + Entry(timestamp, INIT_MESSAGE))
      ensures instance.Valid()
    {
      var logger := new AppLogger(true);
      var text := logger.ReadLogs(file);
      logger.logBuffer := text;
      logger.Log(INIT_MESSAGE, timestamp);
      instance := logger;
    }
  }
}
