/**
 * The container's process supervisor: it starts the database server and the
 * API server as shell subprocesses, relays their output to the console,
 * restarts or gives up on each according to its flags, and turns the
 * supervisors' outcomes into the container's exit code.
 *
 * Running a child is an oracle: a `Run` says what one execution of the
 * command does (the lines it writes on each pipe, the order in which the two
 * relays happen to be scheduled, and its return code), or that the shell
 * could not be spawned at all.
 */
module Entrypoint {
  import opened Common
  import opened Streams
  import Decimal

  /** The container's standard output; every `print` appends one piece of text. */
  class Console {
    var lines: seq<string>

    constructor ()
      ensures lines == []
    {
      lines := [];
    }

    method Print(text: string)
      modifies this
      ensures lines == old(lines) + [text]
    {
      lines := lines + [text];
    }
  }

  /** The console text for one relayed line; the line keeps its own line break. */
  function RelayLine(processName: string, pipeName: string, line: string): (r: string)
    ensures |r| == |processName| + |pipeName| + 7 + |line|
    ensures r[..|processName|] == processName && r[|r| - |line|..] == line
  {
    var prefix := processName + " > " + pipeName + "  | ";
    assert (prefix + line)[..|processName|] == prefix[..|processName|];
    assert (prefix + line)[|prefix|..] == line;
    prefix + line
  }

  /** The console text for a whole pipe, line by line in read order. */
  function RelayedLines(processName: string, pipeName: string, lines: seq<string>): (r: seq<string>)
    ensures |r| == |lines|
  {
    if lines == [] then []
    else RelayedLines(processName, pipeName, lines[..|lines| - 1]) + [RelayLine(processName, pipeName, lines[|lines| - 1])]
  }

  lemma RelayedLinesAppend(processName: string, pipeName: string, lines: seq<string>, line: string)
    ensures RelayedLines(processName, pipeName, lines + [line])
         == RelayedLines(processName, pipeName, lines) + [RelayLine(processName, pipeName, line)]
  {
    assert (lines + [line])[..|lines|] == lines;
  }

  /** The i-th relayed text is the i-th line, prefixed with its origin. */
  lemma {:induction false} RelayedLinesAt(processName: string, pipeName: string, lines: seq<string>, i: nat)
    requires i < |lines|
    ensures RelayedLines(processName, pipeName, lines)[i] == RelayLine(processName, pipeName, lines[i])
  {
    if i < |lines| - 1 {
      RelayedLinesAt(processName, pipeName, lines[..|lines| - 1], i);
    }
  }

  /**
   * One turn of the relay loop: read a line; at end of file report that the
   * relay is done, otherwise print it with its origin.
   */
  method RelayStep(processName: string, pipeName: string, reader: LineReader, console: Console)
    returns (done: bool)
    requires reader.Valid()
    modifies reader, console
    ensures reader.Valid()
    ensures done <==> old(reader.position) == |reader.lines|
    ensures done ==> reader.position == old(reader.position) && console.lines == old(console.lines)
    ensures !done ==>
      && reader.position == old(reader.position) + 1
      && console.lines == old(console.lines) + [RelayLine(processName, pipeName, reader.lines[old(reader.position)])]
  {
    var line := reader.ReadLine();
    if line == "" {
      done := true;
    } else {
      console.Print(RelayLine(processName, pipeName, line));
      done := false;
    }
  }

  /** `print_lines_continuously`: relays a pipe to the console until end of file, in read order. */
  method PrintLinesContinuously(processName: string, pipeName: string, reader: LineReader, console: Console)
    requires reader.Valid()
    modifies reader, console
    ensures reader.Valid() && reader.position == |reader.lines|
    ensures console.lines == old(console.lines)
                          + RelayedLines(processName, pipeName, reader.lines[old(reader.position)..])
  {
    ghost var start := reader.position;
    while true
      invariant reader.Valid() && start <= reader.position
      invariant console.lines == old(console.lines)
                              + RelayedLines(processName, pipeName, reader.lines[start..reader.position])
      decreases |reader.lines| - reader.position
    {
      ghost var here := reader.position;
      var done := RelayStep(processName, pipeName, reader, console);
      if done {
        assert reader.lines[start..reader.position] == reader.lines[start..];
        break;
      }
      assert reader.lines[start..reader.position] == reader.lines[start..here] + [reader.lines[here]];
      RelayedLinesAppend(processName, pipeName, reader.lines[start..here], reader.lines[here]);
    }
  }

  /**
   * The console lines after `before` are an interleaving of the relayed
   * first `outCount` stdout lines and first `errCount` stderr lines.
   */
  ghost predicate RelayedSoFar(lines: seq<string>, before: seq<string>, processName: string,
                               outLines: seq<string>, outCount: nat, errLines: seq<string>, errCount: nat)
  {
    && outCount <= |outLines| && errCount <= |errLines|
    && |before| <= |lines| && lines[..|before|] == before
    && IsInterleaving(lines[|before|..], RelayedLines(processName, "stdout", outLines[..outCount]),
                                         RelayedLines(processName, "stderr", errLines[..errCount]))
  }

  /** Printing the next line of either pipe keeps the console an interleaving of the two. */
  lemma RelayedOneMore(lines: seq<string>, before: seq<string>, processName: string,
                       outLines: seq<string>, outCount: nat, errLines: seq<string>, errCount: nat,
                       fromStdout: bool)
    requires RelayedSoFar(lines, before, processName, outLines, outCount, errLines, errCount)
    requires fromStdout ==> outCount < |outLines|
    requires !fromStdout ==> errCount < |errLines|
    ensures fromStdout ==>
      RelayedSoFar(lines + [RelayLine(processName, "stdout", outLines[outCount])], before, processName,
                   outLines, outCount + 1, errLines, errCount)
    ensures !fromStdout ==>
      RelayedSoFar(lines + [RelayLine(processName, "stderr", errLines[errCount])], before, processName,
                   outLines, outCount, errLines, errCount + 1)
  {
    var printed := lines[|before|..];
    var outs := RelayedLines(processName, "stdout", outLines[..outCount]);
    var errs := RelayedLines(processName, "stderr", errLines[..errCount]);
    if fromStdout {
      var x := RelayLine(processName, "stdout", outLines[outCount]);
      assert (lines + [x])[..|before|] == before;
      assert (lines + [x])[|before|..] == printed + [x];
      assert outLines[..outCount + 1] == outLines[..outCount] + [outLines[outCount]];
      RelayedLinesAppend(processName, "stdout", outLines[..outCount], outLines[outCount]);
      InterleavingExtendFirst(printed, outs, errs, x);
    } else {
      var x := RelayLine(processName, "stderr", errLines[errCount]);
      assert (lines + [x])[..|before|] == before;
      assert (lines + [x])[|before|..] == printed + [x];
      assert errLines[..errCount + 1] == errLines[..errCount] + [errLines[errCount]];
      RelayedLinesAppend(processName, "stderr", errLines[..errCount], errLines[errCount]);
      InterleavingExtendSecond(printed, outs, errs, x);
    }
  }

  /** One turn of the scheduler: the relay of the chosen pipe takes one step. */
  method RelayTurn(processName: string, stdout: LineReader, stderr: LineReader, console: Console,
                   fromStdout: bool, ghost before: seq<string>)
    returns (done: bool)
    requires stdout != stderr && stdout.Valid() && stderr.Valid()
    requires RelayedSoFar(console.lines, before, processName, stdout.lines, stdout.position,
                          stderr.lines, stderr.position)
    modifies stdout, stderr, console
    ensures stdout.Valid() && stderr.Valid()
    ensures RelayedSoFar(console.lines, before, processName, stdout.lines, stdout.position,
                         stderr.lines, stderr.position)
    ensures fromStdout ==>
      && stderr.position == old(stderr.position)
      && (done <==> old(stdout.position) == |stdout.lines|)
      && stdout.position == old(stdout.position) + (if done then 0 else 1)
    ensures !fromStdout ==>
      && stdout.position == old(stdout.position)
      && (done <==> old(stderr.position) == |stderr.lines|)
      && stderr.position == old(stderr.position) + (if done then 0 else 1)
  {
    if fromStdout {
      if stdout.position < |stdout.lines| {
        RelayedOneMore(console.lines, before, processName, stdout.lines, stdout.position,
                       stderr.lines, stderr.position, true);
      }
      done := RelayStep(processName, "stdout", stdout, console);
    } else {
      if stderr.position < |stderr.lines| {
        RelayedOneMore(console.lines, before, processName, stdout.lines, stdout.position,
                       stderr.lines, stderr.position, false);
      }
      done := RelayStep(processName, "stderr", stderr, console);
    }
  }

  /**
   * The two relays of one freshly spawned child, run concurrently until both
   * reach end of file. The scheduler's choice of which relay makes progress
   * next is the oracle `schedule` (true: stdout); once it is used up, stdout
   * goes first. Each pipe keeps its own order; the two may interleave in any way.
   */
  method GatherRelays(processName: string, stdout: LineReader, stderr: LineReader, console: Console,
                      schedule: seq<bool>)
    requires stdout != stderr && stdout.Valid() && stderr.Valid()
    requires stdout.position == 0 && stderr.position == 0
    modifies stdout, stderr, console
    ensures stdout.position == |stdout.lines| && stderr.position == |stderr.lines|
    ensures |console.lines| >= |old(console.lines)| && console.lines[..|old(console.lines)|] == old(console.lines)
    ensures IsInterleaving(console.lines[|old(console.lines)|..],
                           RelayedLines(processName, "stdout", stdout.lines),
                           RelayedLines(processName, "stderr", stderr.lines))
  {
    ghost var before := console.lines;
    assert console.lines[..|before|] == before && console.lines[|before|..] == [];
    var outDone, errDone := false, false;
    var step := 0;
    while !(outDone && errDone)
      invariant stdout.Valid() && stderr.Valid()
      invariant outDone ==> stdout.position == |stdout.lines|
      invariant errDone ==> stderr.position == |stderr.lines|
      invariant RelayedSoFar(console.lines, before, processName, stdout.lines, stdout.position,
                             stderr.lines, stderr.position)
      decreases |stdout.lines| - stdout.position + |stderr.lines| - stderr.position, !outDone, !errDone
    {
      var pickStdout := if outDone then false else if errDone then true else step >= |schedule| || schedule[step];
      if pickStdout {
        outDone := RelayTurn(processName, stdout, stderr, console, true, before);
      } else {
        errDone := RelayTurn(processName, stdout, stderr, console, false, before);
      }
      step := step + 1;
    }
    assert stdout.lines[..stdout.position] == stdout.lines;
    assert stderr.lines[..stderr.position] == stderr.lines;
  }

  /**
   * Spawns the command, relays both pipes until end of file, and only then
   * reports the return code; a spawn failure raises instead.
   */
  method ExecuteSubprocessShell(name: string, command: string, run: Run, console: Console)
    returns (r: Result<int, string>)
    requires WellFormedRun(run)
    modifies console
    ensures run.SpawnFailed? ==> r == Failure(run.reason) && console.lines == old(console.lines)
    ensures run.Exited? ==>
      && r == Success(run.returnCode)
      && |console.lines| >= |old(console.lines)|
      && console.lines[..|old(console.lines)|] == old(console.lines)
      && IsInterleaving(console.lines[|old(console.lines)|..],
                        RelayedLines(name, "stdout", run.stdout),
                        RelayedLines(name, "stderr", run.stderr))
  {
    if run.SpawnFailed? {
      return Failure(run.reason);
    }
    var stdout := new LineReader(run.stdout);
    var stderr := new LineReader(run.stderr);
    GatherRelays(name, stdout, stderr, console, run.schedule);
    r := Success(run.returnCode);
  }

  /** How a supervised process's loop ended. */
  datatype Outcome =
    | Returned                // the loop stopped and the process is not critical
    | Raised(message: string) // an exception left the supervisor
    | Running                 // the oracle holds no further run: supervision goes on

  const CriticalEndedMessage := "Critical process has ended!"

  /**
   * The restart/criticality policy: the outcome of supervising a command
   * whose successive executions are `runs`, and how many executions were
   * started.
   */
  function Supervision(restart: bool, critical: bool, runs: seq<Run>): (result: (Outcome, nat))
    ensures result.1 <= |runs|
  {
    if runs == [] then (Running, 0)
    else if runs[0].SpawnFailed? then (Raised(runs[0].reason), 1)
    else if restart then
      var rest := Supervision(restart, critical, runs[1..]);
      (rest.0, rest.1 + 1)
    else if critical then (Raised(CriticalEndedMessage), 1)
    else (Returned, 1)
  }

  /**
   * One step of the policy at the `k`-th execution, for a loop that has
   * already started `k` executions: what the whole supervision comes to.
   */
  lemma SupervisionStep(restart: bool, critical: bool, runs: seq<Run>, k: nat)
    requires k < |runs|
    requires Supervision(restart, critical, runs)
          == (Supervision(restart, critical, runs[k..]).0, Supervision(restart, critical, runs[k..]).1 + k)
    ensures runs[k].SpawnFailed? ==> Supervision(restart, critical, runs) == (Raised(runs[k].reason), k + 1)
    ensures runs[k].Exited? && restart ==>
      Supervision(restart, critical, runs)
        == (Supervision(restart, critical, runs[k + 1..]).0, Supervision(restart, critical, runs[k + 1..]).1 + k + 1)
    ensures runs[k].Exited? && !restart ==>
      Supervision(restart, critical, runs) == (if critical then Raised(CriticalEndedMessage) else Returned, k + 1)
  {
    assert runs[k..][0] == runs[k] && runs[k..][1..] == runs[k + 1..];
  }

  /** The line printed once an execution of the command has exited. */
  function ExitedMessage(name: string, returnCode: int): (r: string)
    ensures "Subprocess '" + name + "' exited with code " <= r
    ensures |r| >= 2 && r[|r| - 2..] == ".\n"
  {
    "Subprocess '" + name + "' exited with code " + Decimal.IntToString(returnCode) + ".\n"
  }

  /** The line announcing whether the command will be restarted. */
  function RestartMessage(name: string, command: string, restart: bool): (r: string)
    ensures restart <==> "Restarting" <= r
    ensures |r| > 0 && r[|r| - 1] == '\n'
  {
    if restart then "Restarting subprocess '" + name + "' for shell command '" + command + "'...\n"
    else
      var kept := "Subprocess '" + name + "' will NOT be restarted.\n";
      assert kept[0] == 'S';
      kept
  }

  /**
   * What one pass of the supervision loop prints: nothing when the shell
   * cannot be spawned; otherwise the relayed pipes, interleaved, followed by
   * the exit report and the restart announcement.
   */
  ghost predicate PassOutput(printed: seq<string>, name: string, command: string, restart: bool, run: Run) {
    match run
    case SpawnFailed(_) => printed == []
    case Exited(stdout, stderr, _, returnCode) =>
      && |printed| >= 2
      && IsInterleaving(printed[..|printed| - 2], RelayedLines(name, "stdout", stdout),
                        RelayedLines(name, "stderr", stderr))
      && printed[|printed| - 2..] == [ExitedMessage(name, returnCode), RestartMessage(name, command, restart)]
  }

  /**
   * One pass of the supervision loop: execute the command, report its exit
   * code, and announce whether it will be restarted.
   */
  method SuperviseOnce(name: string, command: string, restart: bool, run: Run, console: Console)
    returns (r: Result<int, string>, ghost printed: seq<string>)
    requires WellFormedRun(run)
    modifies console
    ensures r == if run.SpawnFailed? then Failure(run.reason) else Success(run.returnCode)
    ensures console.lines == old(console.lines) + printed
    ensures PassOutput(printed, name, command, restart, run)
  {
    ghost var before := console.lines;
    r := ExecuteSubprocessShell(name, command, run, console);
    if r.Failure? {
      printed := [];
      return;
    }
    ghost var relayed := console.lines[|before|..];
    assert console.lines == before + relayed;
    console.Print(ExitedMessage(name, r.value));
    console.Print(RestartMessage(name, command, restart));
    printed := relayed + [ExitedMessage(name, r.value), RestartMessage(name, command, restart)];
    assert printed[..|printed| - 2] == relayed;
  }

  /** The passes' printed lines, one pass after another. */
  function Flatten(passes: seq<seq<string>>): seq<string> {
    if passes == [] then [] else Flatten(passes[..|passes| - 1]) + passes[|passes| - 1]
  }

  /**
   * `passes` is what the first |passes| executions of the command printed,
   * pass by pass.
   */
  ghost predicate PassesOutput(passes: seq<seq<string>>, name: string, command: string, restart: bool, runs: seq<Run>)
    decreases |passes|
  {
    && |passes| <= |runs|
    && (passes != [] ==>
          && PassesOutput(passes[..|passes| - 1], name, command, restart, runs)
          && PassOutput(passes[|passes| - 1], name, command, restart, runs[|passes| - 1]))
  }

  lemma PassesOutputAppend(passes: seq<seq<string>>, printed: seq<string>, name: string, command: string,
                           restart: bool, runs: seq<Run>, base: seq<string>)
    requires PassesOutput(passes, name, command, restart, runs) && |passes| < |runs|
    requires PassOutput(printed, name, command, restart, runs[|passes|])
    ensures PassesOutput(passes + [printed], name, command, restart, runs)
    ensures base + Flatten(passes + [printed]) == base + Flatten(passes) + printed
  {
    var extended := passes + [printed];
    assert extended[..|extended| - 1] == passes && extended[|extended| - 1] == printed;
    assert Flatten(extended) == Flatten(passes) + printed;
    assert base + (Flatten(passes) + printed) == base + Flatten(passes) + printed;
  }

  /**
   * The console after `base` holds exactly what the first |passes|
   * executions printed, pass by pass.
   */
  ghost predicate SupervisedSoFar(lines: seq<string>, base: seq<string>, passes: seq<seq<string>>,
                                  name: string, command: string, restart: bool, runs: seq<Run>)
  {
    lines == base + Flatten(passes) && PassesOutput(passes, name, command, restart, runs)
  }

  /** One pass of the supervision loop, accounted for in the output of all passes so far. */
  method SuperviseTurn(name: string, command: string, restart: bool, runs: seq<Run>, launches: nat,
                       console: Console, ghost base: seq<string>, ghost passes: seq<seq<string>>)
    returns (r: Result<int, string>, ghost passes': seq<seq<string>>)
    requires launches == |passes| < |runs| && WellFormedRun(runs[launches])
    requires SupervisedSoFar(console.lines, base, passes, name, command, restart, runs)
    modifies console
    ensures r == if runs[launches].SpawnFailed? then Failure(runs[launches].reason) else Success(runs[launches].returnCode)
    ensures |passes'| == |passes| + 1
    ensures SupervisedSoFar(console.lines, base, passes', name, command, restart, runs)
  {
    ghost var printed;
    r, printed := SuperviseOnce(name, command, restart, runs[launches], console);
    PassesOutputAppend(passes, printed, name, command, restart, runs, base);
    passes' := passes + [printed];
  }

  /**
   * The supervision loop: after every exit the command is restarted when
   * `restart` is set; otherwise the loop ends, and ending raises when
   * `critical` is set. Each execution prints one pass.
   */
  method SuperviseLoop(name: string, command: string, restart: bool, critical: bool,
                       runs: seq<Run>, console: Console)
    returns (outcome: Outcome, launches: nat, ghost passes: seq<seq<string>>)
    requires forall i :: 0 <= i < |runs| ==> WellFormedRun(runs[i])
    modifies console
    ensures (outcome, launches) == Supervision(restart, critical, runs)
    ensures |passes| == launches && PassesOutput(passes, name, command, restart, runs)
    ensures console.lines == old(console.lines) + Flatten(passes)
  {
    launches := 0;
    passes := [];
    assert runs[0..] == runs;
    while true
      invariant launches <= |runs| && |passes| == launches
      invariant SupervisedSoFar(console.lines, old(console.lines), passes, name, command, restart, runs)
      invariant restart || launches == 0
      invariant Supervision(restart, critical, runs)
             == (Supervision(restart, critical, runs[launches..]).0,
                 Supervision(restart, critical, runs[launches..]).1 + launches)
      decreases |runs| - launches
    {
      if launches == |runs| {
        outcome := Running;
        return;
      }
      SupervisionStep(restart, critical, runs, launches);
      var r;
      r, passes := SuperviseTurn(name, command, restart, runs, launches, console, old(console.lines), passes);
      launches := launches + 1;
      if r.Failure? {
        outcome := Raised(r.error);
        return;
      }
      if !restart {
        break;
      }
    }
    if critical {
      outcome := Raised(CriticalEndedMessage);
    } else {
      outcome := Returned;
    }
  }

  /** The line announcing a newly supervised command. */
  function CreatingMessage(name: string, command: string): (r: string)
    ensures "Creating subprocess '" + name + "'" <= r
    ensures |r| > 0 && r[|r| - 1] == '\n'
  {
    "Creating subprocess '" + name + "' for shell command '" + command + "'...\n"
  }

  /** `start_supervised_process`: announce the command, then supervise it. */
  method StartSupervisedProcess(name: string, command: string, restart: bool, critical: bool,
                                runs: seq<Run>, console: Console)
    returns (outcome: Outcome, launches: nat, ghost passes: seq<seq<string>>)
    requires forall i :: 0 <= i < |runs| ==> WellFormedRun(runs[i])
    modifies console
    ensures (outcome, launches) == Supervision(restart, critical, runs)
    ensures |passes| == launches && PassesOutput(passes, name, command, restart, runs)
    ensures console.lines == old(console.lines) + [CreatingMessage(name, command)] + Flatten(passes)
  {
    console.Print(CreatingMessage(name, command));
    outcome, launches, passes := SuperviseLoop(name, command, restart, critical, runs, console);
  }

  /** Without restart the command runs once and the loop ends. */
  lemma NoRestartRunsOnce(critical: bool, runs: seq<Run>)
    requires runs != []
    ensures Supervision(false, critical, runs).1 == 1
    ensures Supervision(false, critical, runs).0
         == if runs[0].SpawnFailed? then Raised(runs[0].reason)
            else if critical then Raised(CriticalEndedMessage)
            else Returned
  {
  }

  /**
   * With restart the loop never ends by itself: every run is used, and only
   * a spawn failure leaves the loop.
   */
  lemma {:induction false} RestartNeverStops(critical: bool, runs: seq<Run>)
    requires forall i :: 0 <= i < |runs| ==> runs[i].Exited?
    ensures Supervision(true, critical, runs) == (Running, |runs|)
  {
    if runs != [] {
      RestartNeverStops(critical, runs[1..]);
    }
  }

  /** A restarted process never ends the supervisor normally, whatever `critical` says. */
  lemma {:induction false} RestartNeverReturns(critical: bool, runs: seq<Run>)
    ensures Supervision(true, critical, runs).0 != Returned
    ensures Supervision(true, critical, runs).0.Raised? ==>
              exists i :: 0 <= i < |runs| && runs[i].SpawnFailed?
  {
    if runs != [] && runs[0].Exited? {
      RestartNeverReturns(critical, runs[1..]);
      if Supervision(true, critical, runs).0.Raised? {
        var i :| 0 <= i < |runs[1..]| && runs[1..][i].SpawnFailed?;
        assert runs[i + 1].SpawnFailed?;
      }
    }
  }

  /** Two executions look alike to the policy when both spawned or both failed alike. */
  predicate SameShape(a: Run, b: Run) {
    a.Exited? == b.Exited? && (a.SpawnFailed? ==> a.reason == b.reason)
  }

  /** The return codes, and the output, are never consulted by the policy. */
  lemma {:induction false} SupervisionIgnoresExitCodes(restart: bool, critical: bool, runs: seq<Run>, others: seq<Run>)
    requires |runs| == |others|
    requires forall i :: 0 <= i < |runs| ==> SameShape(runs[i], others[i])
    ensures Supervision(restart, critical, runs) == Supervision(restart, critical, others)
  {
    if runs != [] {
      SupervisionIgnoresExitCodes(restart, critical, runs[1..], others[1..]);
    }
  }

  /** The container's exit decision; StillRunning while no exit is decided. */
  datatype ExitStatus = Exit(code: int) | StillRunning

  /**
   * `main`: an exception from any supervisor exits with 1; exit 0 needs every
   * supervisor to have returned; otherwise the gathering goes on.
   */
  function MainExit(outcomes: seq<Outcome>): (r: ExitStatus)
    ensures r == Exit(1) <==> exists i :: 0 <= i < |outcomes| && outcomes[i].Raised?
    ensures r == Exit(0) <==> forall i :: 0 <= i < |outcomes| ==> outcomes[i] == Returned
    ensures r == Exit(0) || r == Exit(1) || r == StillRunning
  {
    if outcomes == [] then Exit(0)
    else
      var rest := MainExit(outcomes[1..]);
      match outcomes[0]
      case Raised(_) => Exit(1)
      case Running => if rest == Exit(1) then Exit(1) else StillRunning
      case Returned => rest
  }

  /** A supervised process: its name, shell command and policy flags. */
  datatype ProcessSpec = ProcessSpec(name: string, command: string, restart: bool, critical: bool)

  const Postgres := ProcessSpec("Postgres", "/usr/local/bin/docker-entrypoint.sh postgres", false, true)
  const QuartApi := ProcessSpec("QuartAPI", "python -u /api/run.py", true, false)

  /**
   * `main`: supervises the database and the API server and decides the exit
   * code; an exception's text is printed before exiting with 1.
   */
  method RunMain(postgresRuns: seq<Run>, quartRuns: seq<Run>, console: Console)
    returns (status: ExitStatus)
    requires forall i :: 0 <= i < |postgresRuns| ==> WellFormedRun(postgresRuns[i])
    requires forall i :: 0 <= i < |quartRuns| ==> WellFormedRun(quartRuns[i])
    modifies console
    ensures status == MainExit([Supervision(Postgres.restart, Postgres.critical, postgresRuns).0,
                                Supervision(QuartApi.restart, QuartApi.critical, quartRuns).0])
    ensures status == Exit(1) ==>
      var raised := if Supervision(Postgres.restart, Postgres.critical, postgresRuns).0.Raised?
                    then Supervision(Postgres.restart, Postgres.critical, postgresRuns).0
                    else Supervision(QuartApi.restart, QuartApi.critical, quartRuns).0;
      |console.lines| > 0 && console.lines[|console.lines| - 1] == "Exception: " + raised.message + "\n"
  {
    var database, _, _ := StartSupervisedProcess(Postgres.name, Postgres.command, Postgres.restart,
                                              Postgres.critical, postgresRuns, console);
    var api, _, _ := StartSupervisedProcess(QuartApi.name, QuartApi.command, QuartApi.restart,
                                         QuartApi.critical, quartRuns, console);
    status := MainExit([database, api]);
    if database.Raised? {
      console.Print("Exception: " + database.message + "\n");
    } else if api.Raised? {
      console.Print("Exception: " + api.message + "\n");
    } else if status == Exit(0) {
      console.Print("All processes have ended without indication of error.\n");
    }
  }

  /**
   * With the shipped configuration the container exits with 1 as soon as the
   * database server has been run once, and it never exits with 0.
   */
  lemma ShippedConfigurationExit(postgresRuns: seq<Run>, quartRuns: seq<Run>)
    ensures postgresRuns != [] ==>
      MainExit([Supervision(Postgres.restart, Postgres.critical, postgresRuns).0,
                Supervision(QuartApi.restart, QuartApi.critical, quartRuns).0]) == Exit(1)
    ensures MainExit([Supervision(Postgres.restart, Postgres.critical, postgresRuns).0,
                      Supervision(QuartApi.restart, QuartApi.critical, quartRuns).0]) != Exit(0)
  {
    RestartNeverReturns(QuartApi.critical, quartRuns);
    var outcomes := [Supervision(Postgres.restart, Postgres.critical, postgresRuns).0,
                     Supervision(QuartApi.restart, QuartApi.critical, quartRuns).0];
    if postgresRuns != [] {
      assert outcomes[0].Raised?;
    }
    assert outcomes[1] != Returned;
  }
}
