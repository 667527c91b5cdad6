/**
 * Helpers of the API server: naming backup files with a UTC timestamp,
 * making a file name unique within a directory by a counter postfix, and
 * relaying a child process's pipes to a logger.
 *
 * The current time is a parameter, and a directory is the finite set of the
 * names of the regular files it holds.
 */
module Utils {
  import opened Common
  import opened Streams
  import opened Decimal

  /** A UTC calendar instant at second precision. */
  datatype Timestamp = Timestamp(year: nat, month: nat, day: nat, hour: nat, minute: nat, second: nat)

  /** An instant that `datetime` can represent, with a four-digit year. */
  predicate ValidTimestamp(t: Timestamp) {
    && 1000 <= t.year <= 9999
    && 1 <= t.month <= 12
    && 1 <= t.day <= 31
    && t.hour < 24 && t.minute < 60 && t.second < 60
  }

  /** The `%Y%m%d%H%M%S` rendering of an instant. */
  function FormatTimestamp(t: Timestamp): string {
    ZeroPadded(t.year, 4) + ZeroPadded(t.month, 2) + ZeroPadded(t.day, 2)
      + ZeroPadded(t.hour, 2) + ZeroPadded(t.minute, 2) + ZeroPadded(t.second, 2)
  }

  /** Reads the six fields back from a 14-digit `%Y%m%d%H%M%S` text. */
  function ReadTimestamp(s: string): Timestamp
    requires |s| == 14 && AllDigits(s)
  {
    Timestamp(DigitsValue(s[0..4]), DigitsValue(s[4..6]), DigitsValue(s[6..8]),
              DigitsValue(s[8..10]), DigitsValue(s[10..12]), DigitsValue(s[12..14]))
  }

  /** Where the six fields sit in their concatenation. */
  lemma FieldsAt(y: string, mo: string, d: string, h: string, mi: string, s: string)
    requires |y| == 4 && |mo| == 2 && |d| == 2 && |h| == 2 && |mi| == 2 && |s| == 2
    ensures var all := y + mo + d + h + mi + s;
      && |all| == 14
      && all[0..4] == y && all[4..6] == mo && all[6..8] == d
      && all[8..10] == h && all[10..12] == mi && all[12..14] == s
  {
    var all := y + mo + d + h + mi + s;
    assert all[0..4] == y;
    assert all[4..6] == mo;
    assert all[6..8] == d;
    assert all[8..10] == h;
    assert all[10..12] == mi;
    assert all[12..14] == s;
  }

  lemma FormatTimestampShape(t: Timestamp)
    requires ValidTimestamp(t)
    ensures |FormatTimestamp(t)| == 14 && AllDigits(FormatTimestamp(t))
    ensures ReadTimestamp(FormatTimestamp(t)) == t
  {
    assert Pow10(2) == 100 && Pow10(4) == 10000;
    ZeroPaddedLength(t.year, 4);   ZeroPaddedValue(t.year, 4);
    ZeroPaddedLength(t.month, 2);  ZeroPaddedValue(t.month, 2);
    ZeroPaddedLength(t.day, 2);    ZeroPaddedValue(t.day, 2);
    ZeroPaddedLength(t.hour, 2);   ZeroPaddedValue(t.hour, 2);
    ZeroPaddedLength(t.minute, 2); ZeroPaddedValue(t.minute, 2);
    ZeroPaddedLength(t.second, 2); ZeroPaddedValue(t.second, 2);
    FieldsAt(ZeroPadded(t.year, 4), ZeroPadded(t.month, 2), ZeroPadded(t.day, 2),
             ZeroPadded(t.hour, 2), ZeroPadded(t.minute, 2), ZeroPadded(t.second, 2));
  }

  /**
   * `get_timestamped_filename`: the instant `now` as 14 digits, an
   * underscore, the file name, and `.extension` only when the extension is
   * not empty. The 14 digits read back as `now`.
   */
  function GetTimestampedFilename(filename: string, extension: string, now: Timestamp): (r: string)
    requires ValidTimestamp(now)
    ensures |r| >= 15 + |filename| && AllDigits(r[..14]) && ReadTimestamp(r[..14]) == now
    ensures r[14] == '_' && r[15..15 + |filename|] == filename
    ensures extension == [] ==> |r| == 15 + |filename|
    ensures extension != [] ==> r[15 + |filename|..] == "." + extension
  {
    FormatTimestampShape(now);
    var stamp := FormatTimestamp(now);
    var suffix := if |extension| > 0 then "." + extension else "";
    var r := stamp + "_" + filename + suffix;
    assert r[..14] == stamp;
    assert r[15..15 + |filename|] == filename;
    assert r[15 + |filename|..] == suffix;
    r
  }

  /** The position of the last `c` in `p`, or -1 when there is none. */
  function LastIndexOf(p: string, c: char): (r: int)
    ensures -1 <= r < |p|
  {
    if p == [] then -1
    else if p[|p| - 1] == c then |p| - 1
    else LastIndexOf(p[..|p| - 1], c)
  }

  /** `LastIndexOf` finds a `c` when it finds anything. */
  lemma {:induction false} LastIndexOfFound(p: string, c: char)
    ensures LastIndexOf(p, c) >= 0 ==> p[LastIndexOf(p, c)] == c
  {
    if p != [] && p[|p| - 1] != c {
      LastIndexOfFound(p[..|p| - 1], c);
    }
  }

  /** No `c` follows the one `LastIndexOf` finds. */
  lemma {:induction false} LastIndexOfAfter(p: string, c: char, k: int)
    requires LastIndexOf(p, c) < k < |p|
    ensures p[k] != c
  {
    if k < |p| - 1 {
      LastIndexOfAfter(p[..|p| - 1], c, k);
    }
  }

  predicate AllDots(s: string) {
    forall i :: 0 <= i < |s| ==> s[i] == '.'
  }

  /**
   * `os.path.splitext` on POSIX: the extension runs from the last dot of the
   * last path component, unless only dots precede that dot in the component.
   */
  function SplitExt(p: string): (r: (string, string))
    ensures r.0 + r.1 == p
    ensures r.1 == [] || r.1[0] == '.'
  {
    var sepIndex := LastIndexOf(p, '/');
    var dotIndex := LastIndexOf(p, '.');
    LastIndexOfFound(p, '.');
    if dotIndex > sepIndex && !AllDots(p[sepIndex + 1..dotIndex]) then (p[..dotIndex], p[dotIndex..])
    else (p, "")
  }

  /**
   * `splitext` cuts the name in two without losing a character, and an
   * extension is a dot followed by neither dots nor separators.
   */
  lemma SplitExtShape(p: string)
    ensures SplitExt(p).0 + SplitExt(p).1 == p
    ensures SplitExt(p).1 == [] || IsExtension(SplitExt(p).1)
  {
    var sep, dot := LastIndexOf(p, '/'), LastIndexOf(p, '.');
    if dot > sep && !AllDots(p[sep + 1..dot]) {
      assert SplitExt(p) == (p[..dot], p[dot..]);
      ExtensionAfterLastDot(p, dot);
    } else {
      assert SplitExt(p) == (p, "");
    }
  }

  /** What follows the last dot, when no separator does, is an extension. */
  lemma ExtensionAfterLastDot(p: string, dot: int)
    requires 0 <= dot && dot == LastIndexOf(p, '.') && LastIndexOf(p, '/') < dot
    ensures p[..dot] + p[dot..] == p && IsExtension(p[dot..])
  {
    var extension := p[dot..];
    LastIndexOfFound(p, '.');
    forall k | 1 <= k < |extension|
      ensures extension[k] != '.' && extension[k] != '/'
    {
      LastIndexOfAfter(p, '.', dot + k);
      LastIndexOfAfter(p, '/', dot + k);
    }
  }

  predicate NoSeparatorOrDot(s: string) {
    forall k :: 0 <= k < |s| ==> s[k] != '.' && s[k] != '/'
  }

  /** An extension as `splitext` cuts it: a dot followed by neither dots nor separators. */
  predicate IsExtension(e: string) {
    |e| >= 1 && e[0] == '.' && forall k :: 1 <= k < |e| ==> e[k] != '.' && e[k] != '/'
  }

  /** Text without `c` appended after `p` leaves the last `c` where it was. */
  lemma {:induction false} LastIndexOfAppend(p: string, q: string, c: char)
    requires forall k :: 0 <= k < |q| ==> q[k] != c
    ensures LastIndexOf(p + q, c) == LastIndexOf(p, c)
  {
    if q != [] {
      assert (p + q)[..|p + q| - 1] == p + q[..|q| - 1];
      LastIndexOfAppend(p, q[..|q| - 1], c);
    } else {
      assert p + q == p;
    }
  }

  /** The last `c` is at `i` when `p[i]` is one and none follows. */
  lemma {:induction false} LastIndexOfAt(p: string, c: char, i: int)
    requires 0 <= i < |p| && p[i] == c
    requires forall k :: i < k < |p| ==> p[k] != c
    ensures LastIndexOf(p, c) == i
  {
    if i < |p| - 1 {
      LastIndexOfAt(p[..|p| - 1], c, i);
    }
  }

  /** The name tried with counter `i`: stem, underscore, counter, extension. */
  function Candidate(stem: string, extension: string, i: nat): (r: string)
    ensures |r| == |stem| + 1 + |NatToString(i)| + |extension|
    ensures stem + "_" <= r && r[|r| - |extension|..] == extension
    ensures r[|stem| + 1..|r| - |extension|] == NatToString(i)
  {
    stem + "_" + NatToString(i) + extension
  }

  lemma CandidateInjective(stem: string, extension: string, a: nat, b: nat)
    requires Candidate(stem, extension, a) == Candidate(stem, extension, b)
    ensures a == b
  {
    var da, db := NatToString(a), NatToString(b);
    var ca := Candidate(stem, extension, a);
    assert |da| == |db|;
    assert ca[|stem| + 1..|stem| + 1 + |da|] == da;
    assert Candidate(stem, extension, b)[|stem| + 1..|stem| + 1 + |db|] == db;
    NatToStringInjective(a, b);
  }

  /**
   * `get_unique_filename`: `filename` itself when no file of that name
   * exists; otherwise the candidate with the smallest counter from 2 on
   * whose name is free.
   */
  method GetUniqueFilename(existing: set<string>, filename: string) returns (r: string)
    ensures r !in existing
    ensures filename !in existing ==> r == filename
    ensures filename in existing ==>
      exists k :: k >= 2 && r == Candidate(SplitExt(filename).0, SplitExt(filename).1, k)
        && forall j :: 2 <= j < k ==> Candidate(SplitExt(filename).0, SplitExt(filename).1, j) in existing
  {
    var stem, extension := SplitExt(filename).0, SplitExt(filename).1;
    SplitExtShape(filename);
    r := filename;
    var i := 2;
    ghost var tried: set<string> := {};
    while r in existing
      invariant i >= 2
      invariant tried <= existing
      invariant r !in tried
      invariant i == 2 ==> r == filename
      invariant i > 2 ==> filename in existing && r == Candidate(stem, extension, i - 1)
      invariant forall j :: 2 <= j < i - 1 ==> Candidate(stem, extension, j) in existing
      invariant forall s :: s in tried ==> s == filename || exists j :: 2 <= j < i - 1 && s == Candidate(stem, extension, j)
      decreases existing - tried
    {
      tried := tried + {r};
      var next := Candidate(stem, extension, i);
      assert next != filename by {
        assert |next| > |stem| + |extension| == |filename|;
      }
      forall j | 2 <= j < i ensures Candidate(stem, extension, j) != next {
        if Candidate(stem, extension, j) == next {
          CandidateInjective(stem, extension, j, i);
        }
      }
      r := next;
      i := i + 1;
    }
  }

  /** Appending text without dots or separators to a name that has no extension gives it none. */
  lemma AppendKeepsNoExtension(p: string, m: string)
    requires SplitExt(p).1 == [] && NoSeparatorOrDot(m)
    ensures SplitExt(p + m).1 == []
  {
    LastIndexOfAppend(p, m, '/');
    LastIndexOfAppend(p, m, '.');
    var sep, dot := LastIndexOf(p, '/'), LastIndexOf(p, '.');
    if dot > sep {
      assert (p + m)[sep + 1..dot] == p[sep + 1..dot];
    }
  }

  /** Inserting non-empty text without dots or separators before an extension keeps it. */
  lemma InsertKeepsExtension(stem: string, m: string, extension: string)
    requires m != [] && NoSeparatorOrDot(m) && IsExtension(extension)
    ensures SplitExt(stem + m + extension).1 == extension
  {
    var c := stem + m + extension;
    var at := |stem| + |m|;
    assert LastIndexOf(c, '/') == LastIndexOf(stem, '/') by {
      var tail := m + extension;
      assert c == stem + tail;
      forall k | 0 <= k < |tail| ensures tail[k] != '/' {
        if k < |m| {
          assert tail[k] == m[k];
        } else {
          assert tail[k] == extension[k - |m|];
        }
      }
      LastIndexOfAppend(stem, tail, '/');
    }
    assert LastIndexOf(c, '.') == at by {
      forall k | at < k < |c| ensures c[k] != '.' {
        assert c[k] == extension[k - at];
      }
      assert c[at] == extension[0];
      LastIndexOfAt(c, '.', at);
    }
    var sep := LastIndexOf(stem, '/');
    assert !AllDots(c[sep + 1..at]) by {
      assert c[sep + 1..at][at - 1 - (sep + 1)] == m[|m| - 1];
    }
    assert c[at..] == extension;
    SplitExtAtDot(c, sep, at);
  }

  /** Where the last dot follows the last separator and more than dots lead up to it. */
  lemma SplitExtAtDot(p: string, sep: int, dot: int)
    requires LastIndexOf(p, '/') == sep && LastIndexOf(p, '.') == dot
    requires sep < dot && !AllDots(p[sep + 1..dot])
    ensures SplitExt(p).1 == p[dot..]
  {
  }

  /** Appending the counter never changes what `splitext` calls the extension. */
  lemma CandidateKeepsExtension(filename: string, i: nat)
    ensures SplitExt(Candidate(SplitExt(filename).0, SplitExt(filename).1, i)).1 == SplitExt(filename).1
  {
    var stem, extension := SplitExt(filename).0, SplitExt(filename).1;
    SplitExtShape(filename);
    var middle := "_" + NatToString(i);
    assert NoSeparatorOrDot(middle);
    if extension == [] {
      assert Candidate(stem, extension, i) == filename + middle;
      AppendKeepsNoExtension(filename, middle);
    } else {
      assert Candidate(stem, extension, i) == stem + middle + extension;
      InsertKeepsExtension(stem, middle, extension);
    }
  }

  /** Severity of a logged line. */
  datatype Level = Info | Error

  /** One record handed to the logger. */
  datatype LogRecord = LogRecord(level: Level, message: string)

  /** A logger: records accumulate in emission order. */
  class Logger {
    var records: seq<LogRecord>

    constructor ()
      ensures records == []
    {
      records := [];
    }

    method Log(record: LogRecord)
      modifies this
      ensures records == old(records) + [record]
    {
      records := records + [record];
    }
  }

  /** The platform line separator of the container (POSIX). */
  const LineSeparator: char := '\n'

  /** `line.rstrip(os.linesep)`: the line with its trailing separators cut off. */
  function StripTrailingSeparators(line: string): string {
    if line != [] && line[|line| - 1] == LineSeparator then StripTrailingSeparators(line[..|line| - 1])
    else line
  }

  /**
   * The stripped line is the longest prefix of the line that does not end
   * with a separator: everything cut off is a separator.
   */
  lemma {:induction false} StripTrailingSeparatorsShape(line: string)
    ensures var r := StripTrailingSeparators(line);
      && |r| <= |line| && r == line[..|r|]
      && (r == [] || r[|r| - 1] != LineSeparator)
      && forall i :: |r| <= i < |line| ==> line[i] == LineSeparator
  {
    if line != [] && line[|line| - 1] == LineSeparator {
      StripTrailingSeparatorsShape(line[..|line| - 1]);
    }
  }

  /** The record for one line read from pipe `pipeName` of `processName`. */
  function LineRecord(processName: string, pipeName: string, line: string): (r: LogRecord)
    ensures r.level == Error <==> pipeName == "stderr"
    ensures |r.message| >= |processName| + 13 && r.message[..|processName| + 13] == "Subprocess " + processName + ": "
  {
    LogRecord(if pipeName == "stderr" then Error else Info,
              "Subprocess " + processName + ": " + StripTrailingSeparators(line))
  }

  /** The records for a whole pipe, in read order. */
  function LineRecords(processName: string, pipeName: string, lines: seq<string>): (r: seq<LogRecord>)
    ensures |r| == |lines|
  {
    if lines == [] then []
    else LineRecords(processName, pipeName, lines[..|lines| - 1]) + [LineRecord(processName, pipeName, lines[|lines| - 1])]
  }

  lemma LineRecordsAppend(processName: string, pipeName: string, lines: seq<string>, line: string)
    ensures LineRecords(processName, pipeName, lines + [line])
         == LineRecords(processName, pipeName, lines) + [LineRecord(processName, pipeName, line)]
  {
    assert (lines + [line])[..|lines|] == lines;
  }

  /**
   * Every record of a relayed pipe is at error level exactly when the pipe is
   * stderr, and holds the i-th line without its trailing separators.
   */
  lemma {:induction false} LineRecordsAt(processName: string, pipeName: string, lines: seq<string>, i: nat)
    requires i < |lines|
    ensures var rec := LineRecords(processName, pipeName, lines)[i];
      && (rec.level == Error <==> pipeName == "stderr")
      && rec.message == "Subprocess " + processName + ": " + StripTrailingSeparators(lines[i])
  {
    if i < |lines| - 1 {
      LineRecordsAt(processName, pipeName, lines[..|lines| - 1], i);
    }
  }

  /** A line ending in one separator is logged without it. */
  lemma StripsOneLineBreak(content: string)
    requires content == [] || content[|content| - 1] != LineSeparator
    ensures StripTrailingSeparators(content + [LineSeparator]) == content
  {
    assert (content + [LineSeparator])[..|content|] == content;
  }

  /** One turn of the logging loop: read a line; log it unless at end of file. */
  method LogStep(logger: Logger, processName: string, pipeName: string, reader: LineReader)
    returns (done: bool)
    requires reader.Valid()
    modifies reader, logger
    ensures reader.Valid()
    ensures done <==> old(reader.position) == |reader.lines|
    ensures done ==> reader.position == old(reader.position) && logger.records == old(logger.records)
    ensures !done ==>
      && reader.position == old(reader.position) + 1
      && logger.records == old(logger.records) + [LineRecord(processName, pipeName, reader.lines[old(reader.position)])]
  {
    var line := reader.ReadLine();
    if line == "" {
      done := true;
    } else {
      var message := "Subprocess " + processName + ": " + StripTrailingSeparators(line);
      if pipeName == "stderr" {
        logger.Log(LogRecord(Error, message));
      } else {
        logger.Log(LogRecord(Info, message));
      }
      done := false;
    }
  }

  /** `log_lines_continuously`: logs a pipe line by line until end of file. */
  method LogLinesContinuously(logger: Logger, processName: string, pipeName: string, reader: LineReader)
    requires reader.Valid()
    modifies reader, logger
    ensures reader.Valid() && reader.position == |reader.lines|
    ensures logger.records == old(logger.records)
                           + LineRecords(processName, pipeName, reader.lines[old(reader.position)..])
  {
    ghost var start := reader.position;
    while true
      invariant reader.Valid() && start <= reader.position
      invariant logger.records == old(logger.records)
                               + LineRecords(processName, pipeName, reader.lines[start..reader.position])
      decreases |reader.lines| - reader.position
    {
      ghost var here := reader.position;
      var done := LogStep(logger, processName, pipeName, reader);
      if done {
        assert reader.lines[start..reader.position] == reader.lines[start..];
        break;
      }
      assert reader.lines[start..reader.position] == reader.lines[start..here] + [reader.lines[here]];
      LineRecordsAppend(processName, pipeName, reader.lines[start..here], reader.lines[here]);
    }
  }

  /**
   * The records after `before` are an interleaving of the records for the
   * first `outCount` stdout lines and the first `errCount` stderr lines.
   */
  ghost predicate LoggedSoFar(records: seq<LogRecord>, before: seq<LogRecord>, name: string,
                              outLines: seq<string>, outCount: nat, errLines: seq<string>, errCount: nat)
  {
    && outCount <= |outLines| && errCount <= |errLines|
    && |before| <= |records| && records[..|before|] == before
    && IsInterleaving(records[|before|..], LineRecords(name, "stdout", outLines[..outCount]),
                                           LineRecords(name, "stderr", errLines[..errCount]))
  }

  /** Logging the next line of either pipe keeps the records an interleaving of the two. */
  lemma LoggedOneMore(records: seq<LogRecord>, before: seq<LogRecord>, name: string,
                      outLines: seq<string>, outCount: nat, errLines: seq<string>, errCount: nat,
                      fromStdout: bool)
    requires LoggedSoFar(records, before, name, outLines, outCount, errLines, errCount)
    requires fromStdout ==> outCount < |outLines|
    requires !fromStdout ==> errCount < |errLines|
    ensures fromStdout ==>
      LoggedSoFar(records + [LineRecord(name, "stdout", outLines[outCount])], before, name,
                  outLines, outCount + 1, errLines, errCount)
    ensures !fromStdout ==>
      LoggedSoFar(records + [LineRecord(name, "stderr", errLines[errCount])], before, name,
                  outLines, outCount, errLines, errCount + 1)
  {
    var emitted := records[|before|..];
    var outs := LineRecords(name, "stdout", outLines[..outCount]);
    var errs := LineRecords(name, "stderr", errLines[..errCount]);
    if fromStdout {
      var x := LineRecord(name, "stdout", outLines[outCount]);
      assert (records + [x])[..|before|] == before;
      assert (records + [x])[|before|..] == emitted + [x];
      assert outLines[..outCount + 1] == outLines[..outCount] + [outLines[outCount]];
      LineRecordsAppend(name, "stdout", outLines[..outCount], outLines[outCount]);
      InterleavingExtendFirst(emitted, outs, errs, x);
    } else {
      var x := LineRecord(name, "stderr", errLines[errCount]);
      assert (records + [x])[..|before|] == before;
      assert (records + [x])[|before|..] == emitted + [x];
      assert errLines[..errCount + 1] == errLines[..errCount] + [errLines[errCount]];
      LineRecordsAppend(name, "stderr", errLines[..errCount], errLines[errCount]);
      InterleavingExtendSecond(emitted, outs, errs, x);
    }
  }

  /** One turn of the scheduler: the logging loop of the chosen pipe takes one step. */
  method LogTurn(logger: Logger, name: string, stdout: LineReader, stderr: LineReader,
                 fromStdout: bool, ghost before: seq<LogRecord>)
    returns (done: bool)
    requires stdout != stderr && stdout.Valid() && stderr.Valid()
    requires LoggedSoFar(logger.records, before, name, stdout.lines, stdout.position, stderr.lines, stderr.position)
    modifies stdout, stderr, logger
    ensures stdout.Valid() && stderr.Valid()
    ensures LoggedSoFar(logger.records, before, name, stdout.lines, stdout.position, stderr.lines, stderr.position)
    ensures fromStdout ==>
      && stderr.position == old(stderr.position)
      && (done <==> old(stdout.position) == |stdout.lines|)
      && stdout.position == old(stdout.position) + (if done then 0 else 1)
    ensures !fromStdout ==>
      && stdout.position == old(stdout.position)
      && (done <==> old(stderr.position) == |stderr.lines|)
      && stderr.position == old(stderr.position) + (if done then 0 else 1)
  {
    if fromStdout {
      if stdout.position < |stdout.lines| {
        LoggedOneMore(logger.records, before, name, stdout.lines, stdout.position,
                      stderr.lines, stderr.position, true);
      }
      done := LogStep(logger, name, "stdout", stdout);
    } else {
      if stderr.position < |stderr.lines| {
        LoggedOneMore(logger.records, before, name, stdout.lines, stdout.position,
                      stderr.lines, stderr.position, false);
      }
      done := LogStep(logger, name, "stderr", stderr);
    }
  }

  /**
   * The two logging loops of one freshly spawned child, run concurrently
   * until both reach end of file; the scheduler's choices are `schedule`
   * (true: stdout), and stdout goes first once it is used up. Each pipe keeps
   * its own order.
   */
  method GatherLogRelays(logger: Logger, name: string, stdout: LineReader, stderr: LineReader,
                         schedule: seq<bool>)
    requires stdout != stderr && stdout.Valid() && stderr.Valid()
    requires stdout.position == 0 && stderr.position == 0
    modifies stdout, stderr, logger
    ensures stdout.position == |stdout.lines| && stderr.position == |stderr.lines|
    ensures |logger.records| >= |old(logger.records)|
    ensures logger.records[..|old(logger.records)|] == old(logger.records)
    ensures IsInterleaving(logger.records[|old(logger.records)|..],
                           LineRecords(name, "stdout", stdout.lines),
                           LineRecords(name, "stderr", stderr.lines))
  {
    ghost var before := logger.records;
    assert logger.records[..|before|] == before && logger.records[|before|..] == [];
    var outDone, errDone := false, false;
    var step := 0;
    while !(outDone && errDone)
      invariant stdout.Valid() && stderr.Valid()
      invariant outDone ==> stdout.position == |stdout.lines|
      invariant errDone ==> stderr.position == |stderr.lines|
      invariant LoggedSoFar(logger.records, before, name, stdout.lines, stdout.position, stderr.lines, stderr.position)
      decreases |stdout.lines| - stdout.position + |stderr.lines| - stderr.position, !outDone, !errDone
    {
      var pickStdout := if outDone then false else if errDone then true
                        else step >= |schedule| || schedule[step];
      if pickStdout {
        outDone := LogTurn(logger, name, stdout, stderr, true, before);
      } else {
        errDone := LogTurn(logger, name, stdout, stderr, false, before);
      }
      step := step + 1;
    }
    assert stdout.lines[..stdout.position] == stdout.lines;
    assert stderr.lines[..stderr.position] == stderr.lines;
  }

  /**
   * `execute_subprocess_shell`: logs both pipes concurrently (the scheduler's
   * choices are the run's `schedule`; stdout first once it is used up) and
   * returns the return code only after both have reached end of file.
   */
  method ExecuteSubprocessShell(logger: Logger, name: string, command: string, run: Run)
    returns (r: Result<int, string>)
    requires WellFormedRun(run)
    modifies logger
    ensures run.SpawnFailed? ==> r == Failure(run.reason) && logger.records == old(logger.records)
    ensures run.Exited? ==>
      && r == Success(run.returnCode)
      && |logger.records| >= |old(logger.records)|
      && logger.records[..|old(logger.records)|] == old(logger.records)
      && IsInterleaving(logger.records[|old(logger.records)|..],
                        LineRecords(name, "stdout", run.stdout),
                        LineRecords(name, "stderr", run.stderr))
  {
    if run.SpawnFailed? {
      return Failure(run.reason);
    }
    var stdout := new LineReader(run.stdout);
    var stderr := new LineReader(run.stderr);
    GatherLogRelays(logger, name, stdout, stderr, run.schedule);
    r := Success(run.returnCode);
  }
}
