# pancancer command line: a verified model of its core

The `pancancer` command line drives the PanCancer "architecture 3" launcher. This
project models the parts of `scripts/pancancer.py` that hold its decisions and proves
properties of them:

- **Daemon commands** (`Coordinator`, `Provisioner`). These `start`, `stop` and `restart`
  a service and keep track of it through a pid file `/tmp/arch3_<service>.pid`.
  - The files under `/tmp` are a class `PidFiles` holding a map from path to contents.
    The methods `DoStart`, `DoStop` and `TakeAction` of `DaemonCommand` update it in place.
  - Each method is proved against a pure transition function (`StartNext`, `StopNext`,
    `RestartNext`) and a report function. The lemmas are stated on those functions.
  - What the operating system answers is passed in as parameters: whether the spawn
    failed, the child's pid, the return code seen at the poll, `psutil.pid_exists`, and
    the exit code of `kill`.
- **The `start_cmd` and `stop_cmd` strings.** Split at spaces, as `Popen` and `call`
  receive them, they give the intended `flock` and `kill -KILL -<pid>` argument vectors.
- **The workflow registry and `get_workflow_names`.** The listing is built by a loop.
  The `name in get_workflow_names()` check that the `workflows config` and `generator`
  commands use is a substring test on that listing (see Findings).
- **The `sysconfig` prompting loop `_get_config_value`.** The operator's answers are a
  sequence. When the answers run out, `input()` would raise EOFError; the model returns
  None. Also modelled: the fleet-size check passed to the loop as a lambda.
- **The `generator` command's rewrite of params.json** from the workflow record.
  - JSON values are a `Json` datatype.
  - The merge is proved equal to `params` overlaid with the keys the workflow supplies.
  - Lemmas state what each key then holds.

Python's string operations are modelled in module `Text`:
- `str.strip` over Python's whitespace set;
- `str.isdigit` on ASCII digits;
- `str.split(' ')`, which keeps empty fields;
- `str(n)` and `int(s)` on natural numbers;
- the substring `in` test.

## Model

| member | source | states |
|---|---|---|
| Daemon.PidFilePathInjective | scripts/pancancer.py:317 | different service names never share a pid file path |
| Daemon.LockPathInjective | scripts/pancancer.py:374 | different service names never share a flock lock file |
| Daemon.PidFileIsNotLockFile | scripts/pancancer.py:317 | no service's pid file is any service's lock file |
| Daemon.CoordinatorAndProvisionerSeparate | scripts/pancancer.py:369-376 | the Coordinator and the Provisioner use distinct pid files and distinct lock files |
| Daemon.StartCommandArgv | scripts/pancancer.py:374 | for a service name without spaces, `start_cmd.split(' ')` is exactly `flock -n <lock> <service> --config <masterConfig.ini> --endless`, seven arguments |
| Daemon.StopCommandArgv | scripts/pancancer.py:345-351 | `('kill -KILL -' + str(pid)).split(' ')` is `kill`, `-KILL`, then `-` followed by the canonical decimal of pid, which reads back as pid: the whole process group is signalled |
| Daemon.StartTracking | scripts/pancancer.py:321-333 | a start writes `str(pid)` and so keeps every pid file canonical; it tracks the new pid exactly when the child was spawned and its polled code is not 1; otherwise the files are unchanged |
| Daemon.StartFrame | scripts/pancancer.py:317-333 | a start leaves every other service's tracked pid unchanged |
| Daemon.StopTracking | scripts/pancancer.py:339-358 | a stop untracks the service exactly when its pid file exists, the pid is alive and kill returned 0; it reports Stopped exactly when the files changed |
| Daemon.StopFrame | scripts/pancancer.py:340-354 | a stop leaves every other service's tracked pid unchanged |
| Daemon.StopUntrackedIdempotent | scripts/pancancer.py:341-358 | stopping a service with no pid file changes nothing and reports not running, also when repeated |
| Daemon.StaleRecordKept | scripts/pancancer.py:349-356 | a pid file whose process is gone is reported with its pid and left in place |
| Daemon.StartStopRoundTrip | scripts/pancancer.py:314-358 | from no pid file, a recording start then a successful stop returns the files exactly to their earlier state |
| Daemon.RestartAlwaysStarts | scripts/pancancer.py:381-383 | restart starts whatever the stop did: a recording start tracks the new pid; otherwise the state is what the stop left |
| Daemon.DaemonCommand.DoStart | scripts/pancancer.py:314-333 | the new pid files are `StartNext` of the old; the report follows the poll; the launched argv is `start_cmd.split(' ')` |
| Daemon.DaemonCommand.DoStop | scripts/pancancer.py:336-358 | the new pid files are `StopNext` of the old; the report is `StopReportOf`; kill is sent, with argv `(stop_cmd + pid).split(' ')`, exactly when a pid file exists and its pid is alive |
| Daemon.DaemonCommand.TakeAction | scripts/pancancer.py:369-383 | dispatches on the subcommand: start, stop, restart (stop then start), or nothing; kill gets `KillArgv(pid)` and start the seven-argument flock argv |
| Text.StripEmptyIffAllSpace | scripts/pancancer.py:185 | `s.strip() == ''` exactly when every character of s is whitespace |
| Text.StripIdempotent | scripts/pancancer.py:190 | stripping twice is stripping once |
| Text.DecimalRoundTrip | scripts/pancancer.py:333 | `str(n)` is a canonical decimal and `int(str(n)) == n` |
| Text.NumeralRoundTrip | scripts/pancancer.py:343-349 | for a canonical decimal s, `str(int(s)) == s` |
| Text.DigitsAreStripped | scripts/pancancer.py:218 | a non-empty digit string has no surrounding whitespace |
| Text.SplitJoin | scripts/pancancer.py:321 | splitting words joined by a separator none of them holds gives the words back |
| Text.SubstringIffOccurs | scripts/pancancer.py:154 | the recursive substring test holds exactly when the needle occurs at some offset |
| WorkflowLister.WorkflowOrderIsRegistryKeys | scripts/pancancer.py:20-117 | the iteration order lists each registry key exactly once |
| WorkflowLister.GetWorkflowDetails | scripts/pancancer.py:127-128 | the record is found exactly for the registry's names; any other name raises KeyError, modelled as None |
| WorkflowLister.GetWorkflowNames | scripts/pancancer.py:120-124 | the loop builds each key followed by a newline; splitting that at newlines gives the keys in order, then one empty field |
| WorkflowLister.NamesTextContains | scripts/pancancer.py:120-124 | every name occurs in the listing |
| WorkflowLister.WorkflowNamesListed | scripts/pancancer.py:154 | every workflow name passes the `in` check |
| WorkflowLister.ListedButNotAWorkflow | scripts/pancancer.py:154-157 | "Hello", "" and "BWA\nDKFZ" pass the `in` check, and the lookup that follows finds no record for them |
| WorkflowLister.IsWorkflowNameIffKey | scripts/pancancer.py:154 | matching against the listing's lines accepts exactly the registry's names, each of which also passes the check as written |
| SysConfig.GetConfigValue | scripts/pancancer.py:183-194 | the loop returns what `ConfigLoop` specifies, and any value it returns passes the loop's check |
| SysConfig.ConfigLoopAccepts | scripts/pancancer.py:185 | the value the loop settles on is never refused by its condition |
| SysConfig.ConfigLoopNoneIff | scripts/pancancer.py:185-190 | the answers run out exactly when the starting value and the value after every answer are all refused |
| SysConfig.ConfigLoopOrigin | scripts/pancancer.py:189-190 | the returned value is the starting value, the stripped previous value, or one of the answers stripped |
| SysConfig.BlankAnswerFallsBack | scripts/pancancer.py:190 | a blank answer falls back to the stripped previous value, which is returned when acceptable |
| SysConfig.DefaultCheckNonBlank | scripts/pancancer.py:185 | without a check of its own the loop never returns a blank value |
| SysConfig.FleetSizeAcceptsPositiveNumerals | scripts/pancancer.py:218 | the fleet-size lambda accepts exactly the digit strings whose number is positive |
| SysConfig.FleetSizeIsPositive | scripts/pancancer.py:218 | the fleet size returned is a digit string numbering at least 1 |
| Generator.CopyIfPresent | scripts/pancancer.py:432-437 | a key is set to the workflow's value when the workflow has one, and the map is left alone otherwise |
| Generator.MergeWorkflowParams | scripts/pancancer.py:424-440 | the rewritten params are the old params overlaid with exactly the entries the workflow supplies |
| Generator.MergeUpdatesKeys | scripts/pancancer.py:424-440 | the merge writes only its seven keys, and always writes the devices and the workflow name |
| Generator.MergeSetsNameAndDevices | scripts/pancancer.py:439-440 | afterwards `workflow_name` is the requested name and `lvm_device_whitelist` the workflow's devices; every other key is as it was |
| Generator.MergeUpdatesHttp | scripts/pancancer.py:424-427 | `http_workflows` is written exactly when the workflow has an http bundle, and then holds its entry |
| Generator.WorkflowEntryShape | scripts/pancancer.py:425-427 | the entry has the workflow's name as its only key; its record carries the full name under `name` and is otherwise the bundle |
| Generator.MergeHttpWorkflows | scripts/pancancer.py:424-427 | with a bundle, `http_workflows` is replaced by a single entry named by the full name; without one, it is untouched |
| Generator.MergeContainers | scripts/pancancer.py:432-435 | `containers` and `s3_containers` are copied when present and left alone otherwise |
| Generator.MergeIdempotent | scripts/pancancer.py:424-440 | merging the same workflow twice gives the same params as merging it once |
| Generator.PrepareParamsAsWritten | scripts/pancancer.py:411-440 | with the substring check: a name failing it is refused; a name passing it that is no key fails at the lookup; otherwise the merged params result |
| Generator.PrepareParams | scripts/pancancer.py:411-440 | with the line check: a non-key is refused, a key gets its merged params, and the lookup never fails |

## Left out

- I/O is not modelled. The pid file and params.json are a map and a value. Also outside
  the model: the INI download and write of `workflows config`, the write of
  `~/.pancancer` and `~/.aws/config`, and the logging and its messages.
- Process control is not modelled: `Popen`, `time.sleep(2)`, `poll`, `psutil.pid_exists`
  and `subprocess.call`. What they return is a parameter, and `flock`'s own locking is
  outside the model.
- A spawn that cannot run raises in the source. The model reports it as `SpawnError` and
  writes nothing.
- Daemon.DaemonCommand.DoStop: it requires every pid file to hold a canonical decimal,
  as `_do_start` writes it. Whatever else is in the file (a crash on `int(pid)`, a
  trailing newline) is not modelled.
- The time between reading a pid file and killing its process group (concurrent
  commands) is not modelled.
- The Reports, Status and other commands, the cliff wiring, argument parsing and prompt
  texts are outside the core.
- The `generator_cmd` string and its call at line 454 are not modelled. Neither is the
  `youxia` configuration the generator writes.
- The merge assumes params.json holds a JSON object. Reading a non-object is outside the
  model.
- Generator.WorkflowEntryShape: in the source, the entry is the registry's own nested
  dictionary. Setting its `name` also changes the registry in memory. The model copies
  values, so it does not capture this aliasing. Within one command run it is not
  observable.
- The remaining prompts of `sysconfig take_action` reuse `_get_config_value`, which is
  modelled. The file they write is outside the model.
- Text.IsDigitChar: `str.isdigit` also accepts non-ASCII digits (superscripts, other
  scripts); the model takes ASCII digits only.
- `Workflows.take_action` passes a name to the lookup only when it is not HelloWorld.
  That branch is the same check as the generator's. It is covered by
  `ListedButNotAWorkflow`, since each of its counterexamples differs from "HelloWorld".

## Findings

| source | as written | input that shows it | evidently intended | confidence | as-written member | corrected member |
|---|---|---|---|---|---|---|
| scripts/pancancer.py:154, scripts/pancancer.py:414 | `workflow_name in get_workflow_names()` is a substring test on the newline-joined listing | "Hello", "" or "BWA\nDKFZ" passes the check; the lookup at line 157 or 417 then raises KeyError | accept only the registry's names, i.e. whole lines of the listing | not executed | WorkflowLister.ListedButNotAWorkflow, Generator.PrepareParamsAsWritten | WorkflowLister.IsWorkflowNameIffKey, Generator.PrepareParams |
