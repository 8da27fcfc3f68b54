/**
  The daemon lifecycle controller: `start`, `stop` and `restart` of a named
  background service (the Coordinator or the Provisioner), tracked through a pid
  file under /tmp.

  The pid files are the only state that outlives one invocation. They are modelled
  as a map from file path to file contents. What the operating system decides is
  passed in: the outcome of spawning the start command and polling it after the
  two-second wait, whether a process with the recorded pid exists, and the exit
  code of the `kill` command.
 */
module Daemon {
  import opened Wrappers
  import opened Text

  /** The configuration file every service is started with. */
  const MasterConfigPath := "/home/ubuntu/arch3/config/masterConfig.ini"

  const CoordinatorName := "Coordinator"
  const ProvisionerName := "Provisioner"

  // ----- Paths and command lines built from the service name -----

  /** Where the pid of a started service is recorded. */
  function PidFilePath(serviceName: string): string {
    "/tmp/arch3_" + serviceName + ".pid"
  }

  /** The file `flock -n` locks, so that one service cannot run twice. */
  function LockPath(serviceName: string): string {
    "/tmp/arch3_" + serviceName + ".lock"
  }

  /** The command line a start launches: the service under a non-blocking flock. */
  function StartCommand(serviceName: string): string {
    "flock -n /tmp/arch3_" + serviceName + ".lock " + serviceName
      + " --config /home/ubuntu/arch3/config/masterConfig.ini --endless"
  }

  /** The stop command before the pid is appended: a minus sign, so the pid is negated. */
  const StopCommandPrefix := "kill -KILL -"

  /** The argument vector a stop of process group `pid` runs. */
  function KillArgv(pid: nat): seq<string> {
    ["kill", "-KILL", "-" + DecimalString(pid)]
  }

  /** Different services never share a pid file. */
  lemma PidFilePathInjective(a: string, b: string)
    requires PidFilePath(a) == PidFilePath(b)
    ensures a == b
  {
    var p := "/tmp/arch3_";
    assert |a| == |b|;
    assert a == PidFilePath(a)[|p|..|p| + |a|];
    assert b == PidFilePath(b)[|p|..|p| + |b|];
  }

  /** Different services never share a lock file. */
  lemma LockPathInjective(a: string, b: string)
    requires LockPath(a) == LockPath(b)
    ensures a == b
  {
    var p := "/tmp/arch3_";
    assert |a| == |b|;
    assert a == LockPath(a)[|p|..|p| + |a|];
    assert b == LockPath(b)[|p|..|p| + |b|];
  }

  /** No pid file is ever a lock file: the two end in ".pid" and ".lock". */
  lemma PidFileIsNotLockFile(a: string, b: string)
    ensures PidFilePath(a) != LockPath(b)
  {
    var x, y := PidFilePath(a), LockPath(b);
    assert x[|x| - 1] == 'd' && y[|y| - 1] == 'k';
  }

  const StartCommandTail := " --config /home/ubuntu/arch3/config/masterConfig.ini --endless"

  lemma TailPieces()
    ensures " " + "--config" + " " + MasterConfigPath + " " + "--endless" == StartCommandTail
  {
    assert " " + "--config" + " " == " --config ";
    assert " --config " + MasterConfigPath == " --config /home/ubuntu/arch3/config/masterConfig.ini";
    assert " --config /home/ubuntu/arch3/config/masterConfig.ini" + " " + "--endless" == StartCommandTail;
  }

  lemma JoinSeven(w0: string, w1: string, w2: string, w3: string, w4: string, w5: string, w6: string)
    ensures Join([w0, w1, w2, w3, w4, w5, w6], ' ')
         == w0 + " " + w1 + " " + w2 + " " + w3 + " " + w4 + " " + w5 + " " + w6
  {
    JoinCons(w5, [w6], ' ');
    JoinCons(w4, [w5, w6], ' ');
    JoinCons(w3, [w4, w5, w6], ' ');
    JoinCons(w2, [w3, w4, w5, w6], ' ');
    JoinCons(w1, [w2, w3, w4, w5, w6], ' ');
    JoinCons(w0, [w1, w2, w3, w4, w5, w6], ' ');
    assert [w0] + [w1, w2, w3, w4, w5, w6] == [w0, w1, w2, w3, w4, w5, w6];
  }

  lemma Regroup(f: string, dn: string, pre: string, n: string, suf: string, cfg: string, m: string, e: string)
    ensures f + " " + dn + " " + (pre + n + suf) + " " + n + " " + cfg + " " + m + " " + e
         == (f + " " + dn + " " + pre) + n + (suf + " ") + n + (" " + cfg + " " + m + " " + e)
  {
  }

  lemma LockPathHasNoSpace(serviceName: string)
    requires ' ' !in serviceName
    ensures ' ' !in LockPath(serviceName)
  {
    var l := LockPath(serviceName);
    forall i | 0 <= i < |l| ensures l[i] != ' ' {
      if 11 <= i < 11 + |serviceName| {
        assert l[i] == serviceName[i - 11];
      }
    }
  }

  /** The start command splits on ' ' into flock's arguments: the service's own lock
      file, then the service invoked with the master configuration in endless mode. */
  lemma StartCommandArgv(serviceName: string)
    requires ' ' !in serviceName
    ensures Split(StartCommand(serviceName), ' ')
         == ["flock", "-n", LockPath(serviceName), serviceName, "--config", MasterConfigPath, "--endless"]
  {
    var l := LockPath(serviceName);
    var words := ["flock", "-n", l, serviceName, "--config", MasterConfigPath, "--endless"];
    LockPathHasNoSpace(serviceName);
    JoinSeven("flock", "-n", l, serviceName, "--config", MasterConfigPath, "--endless");
    Regroup("flock", "-n", "/tmp/arch3_", serviceName, ".lock", "--config", MasterConfigPath, "--endless");
    assert "flock" + " " + "-n" + " " + "/tmp/arch3_" == "flock -n /tmp/arch3_";
    assert ".lock" + " " == ".lock ";
    TailPieces();
    assert StartCommand(serviceName) == Join(words, ' ');
    SplitJoin(words, ' ');
  }

  /** The stop command for a recorded pid splits into `kill -KILL -<pid>`: the signal goes
      to the negated pid, i.e. to the whole process group the start created. */
  lemma {:induction false} StopCommandArgv(pid: nat)
    ensures Split(StopCommandPrefix + DecimalString(pid), ' ') == KillArgv(pid)
    ensures KillArgv(pid)[2][0] == '-'
    ensures IsCanonicalDecimal(KillArgv(pid)[2][1..]) && DecimalValue(KillArgv(pid)[2][1..]) == pid
  {
    var d := DecimalString(pid);
    DecimalRoundTrip(pid);
    assert ' ' !in d by {
      forall i | 0 <= i < |d| ensures d[i] != ' ' {
        assert IsDigitChar(d[i]);
      }
    }
    assert Join(["-" + d], ' ') == "-" + d;
    assert Join(["-KILL", "-" + d], ' ') == "-KILL" + " " + ("-" + d);
    assert Join(KillArgv(pid), ' ') == "kill" + " " + Join(["-KILL", "-" + d], ' ');
    assert "kill" + " " + "-KILL" + " " + "-" == StopCommandPrefix;
    assert Join(KillArgv(pid), ' ') == StopCommandPrefix + d;
    SplitJoin(KillArgv(pid), ' ');
    assert KillArgv(pid)[2][1..] == d;
  }

  lemma CoordinatorAndProvisionerSeparate()
    ensures PidFilePath(CoordinatorName) != PidFilePath(ProvisionerName)
    ensures LockPath(CoordinatorName) != LockPath(ProvisionerName)
  {
    if PidFilePath(CoordinatorName) == PidFilePath(ProvisionerName) {
      PidFilePathInjective(CoordinatorName, ProvisionerName);
    }
    if LockPath(CoordinatorName) == LockPath(ProvisionerName) {
      LockPathInjective(CoordinatorName, ProvisionerName);
    }
  }

  // ----- The pid-file state machine -----

  /** Every pid file holds exactly what `str(pid)` wrote. */
  ghost predicate WellFormed(files: map<string, string>) {
    forall path :: path in files ==> IsCanonicalDecimal(files[path])
  }

  /** The pid a service is tracked under, read back with `int(readline())`; None when
      its pid file is absent. */
  function Tracked(files: map<string, string>, serviceName: string): Option<nat>
    requires WellFormed(files)
  {
    var path := PidFilePath(serviceName);
    if path in files then Some(DecimalValue(files[path])) else None
  }

  /** What spawning the start command and polling it two seconds later showed. */
  datatype Spawn =
    | SpawnFailed                                     // Popen raised: the command could not run
    | Spawned(pid: nat, returnCode: Option<int>)      // None: still running at the poll

  datatype StartReport = SpawnError | MightAlreadyBeRunning | Started

  datatype StopReport =
    | NotRunning                    // no pid file
    | NotRunningWithPid(pid: nat)   // pid file present, no such process
    | KillFailed                    // kill exited nonzero
    | Stopped

  /** A start records its pid unless the child had already exited with code 1. */
  predicate StartRecords(spawn: Spawn) {
    spawn.Spawned? && spawn.returnCode != Some(1)
  }

  function StartNext(files: map<string, string>, serviceName: string, spawn: Spawn): map<string, string> {
    if StartRecords(spawn) then files[PidFilePath(serviceName) := DecimalString(spawn.pid)] else files
  }

  function StartReportOf(spawn: Spawn): StartReport {
    match spawn
    case SpawnFailed => SpawnError
    case Spawned(_, returnCode) => if returnCode == Some(1) then MightAlreadyBeRunning else Started
  }

  /** A stop removes the pid file only when the pid exists and kill succeeded. */
  function StopNext(files: map<string, string>, serviceName: string, pidExists: bool, killCode: int): map<string, string> {
    var path := PidFilePath(serviceName);
    if path in files && pidExists && killCode == 0 then files - {path} else files
  }

  function StopReportOf(files: map<string, string>, serviceName: string, pidExists: bool, killCode: int): StopReport
    requires WellFormed(files)
  {
    match Tracked(files, serviceName)
    case None => NotRunning
    case Some(pid) =>
      if !pidExists then NotRunningWithPid(pid)
      else if killCode == 0 then Stopped
      else KillFailed
  }

  /** Restart is a stop followed by a start, whatever the stop did. */
  function RestartNext(files: map<string, string>, serviceName: string,
                       pidExists: bool, killCode: int, spawn: Spawn): map<string, string> {
    StartNext(StopNext(files, serviceName, pidExists, killCode), serviceName, spawn)
  }

  /** A start tracks the spawned pid exactly when the polled return code is not 1;
      with code 1 (or a failed spawn) the previous pid file, if any, is kept. */
  lemma StartTracking(files: map<string, string>, serviceName: string, spawn: Spawn)
    requires WellFormed(files)
    ensures WellFormed(StartNext(files, serviceName, spawn))
    ensures Tracked(StartNext(files, serviceName, spawn), serviceName)
         == if StartRecords(spawn) then Some(spawn.pid) else Tracked(files, serviceName)
    ensures !StartRecords(spawn) ==> StartNext(files, serviceName, spawn) == files
  {
    if StartRecords(spawn) {
      DecimalRoundTrip(spawn.pid);
    }
  }

  /** A start touches its own service's pid file and no other. */
  lemma StartFrame(files: map<string, string>, serviceName: string, other: string, spawn: Spawn)
    requires WellFormed(files) && other != serviceName
    ensures WellFormed(StartNext(files, serviceName, spawn))
    ensures Tracked(StartNext(files, serviceName, spawn), other) == Tracked(files, other)
  {
    StartTracking(files, serviceName, spawn);
    if PidFilePath(other) == PidFilePath(serviceName) {
      PidFilePathInjective(other, serviceName);
    }
  }

  /** A stop untracks the service exactly when its pid file exists, the pid is alive and
      kill returned 0; a stale pid or a failed kill keeps the file. */
  lemma StopTracking(files: map<string, string>, serviceName: string, pidExists: bool, killCode: int)
    requires WellFormed(files)
    ensures WellFormed(StopNext(files, serviceName, pidExists, killCode))
    ensures Tracked(StopNext(files, serviceName, pidExists, killCode), serviceName)
         == if Tracked(files, serviceName).Some? && pidExists && killCode == 0 then None
            else Tracked(files, serviceName)
    ensures StopReportOf(files, serviceName, pidExists, killCode) == Stopped
        <==> StopNext(files, serviceName, pidExists, killCode) != files
  {
  }

  /** A stop touches its own service's pid file and no other. */
  lemma StopFrame(files: map<string, string>, serviceName: string, other: string, pidExists: bool, killCode: int)
    requires WellFormed(files) && other != serviceName
    ensures WellFormed(StopNext(files, serviceName, pidExists, killCode))
    ensures Tracked(StopNext(files, serviceName, pidExists, killCode), other) == Tracked(files, other)
  {
    if PidFilePath(other) == PidFilePath(serviceName) {
      PidFilePathInjective(other, serviceName);
    }
  }

  /** Stop on an untracked service does nothing and says so, however often it is repeated. */
  lemma StopUntrackedIdempotent(files: map<string, string>, serviceName: string,
                                pidExists: bool, killCode: int, pidExists': bool, killCode': int)
    requires WellFormed(files) && Tracked(files, serviceName) == None
    ensures StopNext(files, serviceName, pidExists, killCode) == files
    ensures StopReportOf(files, serviceName, pidExists, killCode) == NotRunning
    ensures StopReportOf(StopNext(files, serviceName, pidExists, killCode), serviceName, pidExists', killCode') == NotRunning
  {
  }

  /** A stale pid file is reported with the pid it holds and left in place. */
  lemma StaleRecordKept(files: map<string, string>, serviceName: string, killCode: int)
    requires WellFormed(files) && Tracked(files, serviceName).Some?
    ensures StopNext(files, serviceName, false, killCode) == files
    ensures StopReportOf(files, serviceName, false, killCode) == NotRunningWithPid(Tracked(files, serviceName).value)
  {
  }

  /** On a service with no pid file, a successful start then a successful stop takes the
      pid file from absent to `str(pid)` to absent, and leaves the files exactly as before. */
  lemma StartStopRoundTrip(files: map<string, string>, serviceName: string, pid: nat, returnCode: Option<int>)
    requires WellFormed(files) && Tracked(files, serviceName) == None
    requires returnCode != Some(1)
    ensures var started := StartNext(files, serviceName, Spawned(pid, returnCode));
            && WellFormed(started)
            && started[PidFilePath(serviceName)] == DecimalString(pid)
            && Tracked(started, serviceName) == Some(pid)
            && StopReportOf(started, serviceName, true, 0) == Stopped
            && StopNext(started, serviceName, true, 0) == files
  {
    var path := PidFilePath(serviceName);
    var started := StartNext(files, serviceName, Spawned(pid, returnCode));
    StartTracking(files, serviceName, Spawned(pid, returnCode));
    assert started - {path} == files;
  }

  /** Restart always attempts the start: if the start records, the service ends up tracked
      under the new pid whatever the stop did; otherwise the state is what the stop left. */
  lemma RestartAlwaysStarts(files: map<string, string>, serviceName: string,
                            pidExists: bool, killCode: int, spawn: Spawn)
    requires WellFormed(files)
    ensures WellFormed(RestartNext(files, serviceName, pidExists, killCode, spawn))
    ensures StartRecords(spawn) ==>
              Tracked(RestartNext(files, serviceName, pidExists, killCode, spawn), serviceName) == Some(spawn.pid)
    ensures !StartRecords(spawn) ==>
              RestartNext(files, serviceName, pidExists, killCode, spawn) == StopNext(files, serviceName, pidExists, killCode)
  {
    var stopped := StopNext(files, serviceName, pidExists, killCode);
    StopTracking(files, serviceName, pidExists, killCode);
    StartTracking(stopped, serviceName, spawn);
  }

  // ----- The pid files on disk and the command objects -----

  /** The pid files under /tmp: path to contents. */
  class PidFiles {
    var files: map<string, string>

    ghost predicate Valid()
      reads this
    {
      WellFormed(files)
    }

    constructor ()
      ensures Valid() && files == map[]
    {
      files := map[];
    }
  }

  datatype StartResult = StartResult(report: StartReport, argv: seq<string>)
  datatype StopResult = StopResult(report: StopReport, killArgv: Option<seq<string>>)

  /** The parent of the Coordinator and Provisioner commands. */
  class DaemonCommand {
    const serviceName: string

    constructor (serviceName: string)
      ensures this.serviceName == serviceName
    {
      this.serviceName := serviceName;
    }

    /** Launch `startCmd` in a new session; after the poll, record the child's pid unless
        it had exited with code 1. Returns what was reported and the argv launched. */
    method DoStart(fs: PidFiles, startCmd: string, spawn: Spawn) returns (result: StartResult)
      requires fs.Valid()
      modifies fs
      ensures fs.Valid()
      ensures fs.files == StartNext(old(fs.files), serviceName, spawn)
      ensures result.report == StartReportOf(spawn)
      ensures result.argv == Split(startCmd, ' ')
    {
      var pidFilePath := PidFilePath(serviceName);
      var argv := Split(startCmd, ' ');
      match spawn
      case SpawnFailed =>
        result := StartResult(SpawnError, argv);
      case Spawned(pid, returnCode) =>
        if returnCode == Some(1) {
          result := StartResult(MightAlreadyBeRunning, argv);
        } else {
          DecimalRoundTrip(pid);
          fs.files := fs.files[pidFilePath := DecimalString(pid)];
          result := StartResult(Started, argv);
        }
    }

    /** Read the pid file; if the pid is alive, send `stopCmd + pid` and remove the file
        when that command exits with 0. Returns the report and the argv of kill, if sent. */
    method DoStop(fs: PidFiles, stopCmd: string, pidExists: bool, killCode: int) returns (result: StopResult)
      requires fs.Valid()
      modifies fs
      ensures fs.Valid()
      ensures fs.files == StopNext(old(fs.files), serviceName, pidExists, killCode)
      ensures result.report == StopReportOf(old(fs.files), serviceName, pidExists, killCode)
      ensures result.killArgv
           == if Tracked(old(fs.files), serviceName).Some? && pidExists
              then Some(Split(stopCmd + DecimalString(Tracked(old(fs.files), serviceName).value), ' '))
              else None
    {
      var pidFilePath := PidFilePath(serviceName);
      if pidFilePath in fs.files {
        var pid := fs.files[pidFilePath];
        NumeralRoundTrip(pid);
        var cmd := stopCmd + pid;
        if pidExists {
          var argv := Split(cmd, ' ');
          if killCode == 0 {
            fs.files := fs.files - {pidFilePath};
            result := StopResult(Stopped, Some(argv));
          } else {
            result := StopResult(KillFailed, Some(argv));
          }
        } else {
          result := StopResult(NotRunningWithPid(DecimalValue(pid)), None);
        }
      } else {
        result := StopResult(NotRunning, None);
      }
    }

    /** Dispatch the `start`, `stop` or `restart` subcommand; any other name does nothing. */
    method TakeAction(fs: PidFiles, subcommand: string, spawn: Spawn, pidExists: bool, killCode: int)
      returns (stopped: Option<StopResult>, started: Option<StartResult>)
      requires fs.Valid()
      modifies fs
      ensures fs.Valid()
      ensures fs.files
           == if subcommand == "start" then StartNext(old(fs.files), serviceName, spawn)
              else if subcommand == "stop" then StopNext(old(fs.files), serviceName, pidExists, killCode)
              else if subcommand == "restart" then RestartNext(old(fs.files), serviceName, pidExists, killCode, spawn)
              else old(fs.files)
      ensures stopped.Some? <==> subcommand == "stop" || subcommand == "restart"
      ensures started.Some? <==> subcommand == "start" || subcommand == "restart"
      ensures stopped.Some? ==> stopped.value.report == StopReportOf(old(fs.files), serviceName, pidExists, killCode)
      ensures stopped.Some? ==>
                stopped.value.killArgv
                == if Tracked(old(fs.files), serviceName).Some? && pidExists
                   then Some(KillArgv(Tracked(old(fs.files), serviceName).value))
                   else None
      ensures started.Some? ==> started.value.report == StartReportOf(spawn)
      ensures started.Some? && ' ' !in serviceName ==>
                started.value.argv
                == ["flock", "-n", LockPath(serviceName), serviceName, "--config", MasterConfigPath, "--endless"]
    {
      var startCmd := StartCommand(serviceName);
      var stopCmd := StopCommandPrefix;
      if ' ' !in serviceName {
        StartCommandArgv(serviceName);
      }
      if Tracked(fs.files, serviceName).Some? {
        StopCommandArgv(Tracked(fs.files, serviceName).value);
      }
      stopped, started := None, None;
      if subcommand == "start" {
        var r := DoStart(fs, startCmd, spawn);
        started := Some(r);
      } else if subcommand == "stop" {
        var r := DoStop(fs, stopCmd, pidExists, killCode);
        stopped := Some(r);
      } else if subcommand == "restart" {
        var r := DoStop(fs, stopCmd, pidExists, killCode);
        stopped := Some(r);
        var s := DoStart(fs, startCmd, spawn);
        started := Some(s);
      }
    }
  }
}
