/** The apply pipeline: the safety gates, the ordered list of actions a plan
    turns into, the dry-run records, and the real run that stops at the first
    failing action. Processes, the filesystem and the clock are answers of a
    `Runner`; the system queries of the gates are answers of a
    `Preflight.System`. */
module Exec {
  import opened Types
  import opened Strings
  import opened Errors
  import opened Policy
  import opened Plan
  import opened Preflight
  import opened Handoff

  const ConfirmToken: string := "DESTROY"

  // The fixed texts of the errors an apply run reports.
  const ConfirmExpectation: string := "--confirm " + ConfirmToken + " is provided for destructive apply"
  const ConfirmRemediation: string := "Re-run with --confirm " + ConfirmToken + " to acknowledge destructive disk changes."
  const ReadinessExpectation: string := "partition devices appear after partition table write"
  const ReadinessRemediation: string := "Wait for udev to settle, verify kernel sees the new partition table, then retry."
  const SpawnRemediation: string := "Verify command exists and permissions are sufficient."
  const StdinRemediation: string := "Inspect generated partition script and command compatibility."
  const WaitRemediation: string := "Inspect system logs and command invocation."
  const CreateDirRemediation: string := "Ensure mount root is writable and path permissions are correct."
  const PartialMountsNote: string := ". If partial mounts were created under "

  /** How long the readiness wait allows the partition devices to appear,
      as the `Debug` form of the eight-second `Duration` shows it. */
  const ReadinessTimeout: string := "8s"

  /** One step of an apply run: a program to execute, or a directory to
      create before a mount. */
  datatype ExecutionAction =
    | Run(phase: string, program: string, args: seq<string>, stdin: Option<string>)
    | CreateDir(phase: string, path: string)

  function Phase(a: ExecutionAction): string {
    a.phase
  }

  /** The command line a record shows: the program alone when it has no
      arguments, else the program and its arguments separated by spaces. */
  function Rendered(a: ExecutionAction): (s: string)
    ensures a.Run? && a.args == [] ==> s == a.program
    ensures a.Run? && a.args != [] ==> s == a.program + " " + Join(a.args, " ")
    ensures a.CreateDir? ==> s == "mkdir -p " + a.path
  {
    match a
    case Run(_, program, args, _) => if args == [] then program else program + " " + Join(args, " ")
    case CreateDir(_, path) => "mkdir -p " + path
  }

  function ProgramName(a: ExecutionAction): string {
    match a
    case Run(_, program, _, _) => program
    case CreateDir(_, _) => "mkdir"
  }

  function Args(a: ExecutionAction): seq<string> {
    match a
    case Run(_, _, args, _) => args
    case CreateDir(_, path) => ["-p", path]
  }

  /** `Path::join` of a relative name: a separator is added unless the base is
      empty or already ends in one. */
  function PathJoin(base: string, name: string): (p: string)
    ensures |base| > 0 && base[|base| - 1] == '/' ==> p == base + name
    ensures (|base| == 0 || base[|base| - 1] != '/') && |base| > 0 ==> p == base + "/" + name
  {
    if |base| == 0 || base[|base| - 1] == '/' then base + name else base + "/" + name
  }

  function SysrootPath(root: string): string { PathJoin(root, "sysroot") }
  function BootPath(root: string): string { PathJoin(SysrootPath(root), "boot") }
  function StatePath(root: string): string { PathJoin(SysrootPath(root), "state") }

  // ------------------------------------------------------------ the actions

  function PartitionActions(plan: PartitionPlan): seq<ExecutionAction> {
    var disk := plan.disk.path;
    [Run("partition", "wipefs", ["-a", "--force", disk], None),
     Run("partition", "sfdisk", [disk], Some(plan.sfdisk_script)),
     Run("partition", "udevadm", ["settle", "--timeout=10"], None)]
  }

  function Ext4(name: string, dev: string): ExecutionAction {
    Run("format", "mkfs.ext4", ["-F", "-L", name, dev], None)
  }

  function FormatActions(plan: PartitionPlan): seq<ExecutionAction> {
    var disk := plan.disk.path;
    [Run("format", "mkfs.vfat", ["-F", "32", "-n", "EFI", PartitionDevice(disk, 1)], None)]
    + match plan.mode
      case Ab => [Ext4("ROOT_A", PartitionDevice(disk, 2)), Ext4("ROOT_B", PartitionDevice(disk, 3)),
                  Ext4("STATE", PartitionDevice(disk, 4))]
      case Mutable => [Ext4("ROOT", PartitionDevice(disk, 2))]
  }

  function MountAt(dev: string, path: string): seq<ExecutionAction> {
    [CreateDir("mount", path), Run("mount", "mount", [dev, path], None)]
  }

  function MountActions(plan: PartitionPlan, root: string): seq<ExecutionAction> {
    var disk := plan.disk.path;
    MountAt(PartitionDevice(disk, 2), SysrootPath(root)) + MountAt(PartitionDevice(disk, 1), BootPath(root))
    + if plan.mode == Ab then MountAt(PartitionDevice(disk, 4), StatePath(root)) else []
  }

  /** The actions of a plan: partition, then format, then mount. */
  function ApplyActions(plan: PartitionPlan, root: string): seq<ExecutionAction> {
    PartitionActions(plan) + FormatActions(plan) + MountActions(plan, root)
  }

  /** `build_apply_actions`: pushes the actions one by one, the AB root and
      state filesystems in a loop over their labels. */
  method BuildApplyActions(plan: PartitionPlan, root: string) returns (actions: seq<ExecutionAction>)
    ensures actions == ApplyActions(plan, root)
  {
    var disk := plan.disk.path;
    actions := [];
    actions := actions + [Run("partition", "wipefs", ["-a", "--force", disk], None)];
    actions := actions + [Run("partition", "sfdisk", [disk], Some(plan.sfdisk_script))];
    actions := actions + [Run("partition", "udevadm", ["settle", "--timeout=10"], None)];
    var efi := PartitionDevice(disk, 1);
    assert actions == PartitionActions(plan);
    actions := actions + [Run("format", "mkfs.vfat", ["-F", "32", "-n", "EFI", efi], None)];
    var sysroot := SysrootPath(root);
    var boot := PathJoin(sysroot, "boot");
    match plan.mode {
      case Ab =>
        var rootA := PartitionDevice(disk, 2);
        var state := PartitionDevice(disk, 4);
        var targets := [("ROOT_A", rootA), ("ROOT_B", PartitionDevice(disk, 3)), ("STATE", state)];
        var formats := [];
        for i := 0 to |targets|
          invariant formats == seq(i, j requires 0 <= j < i => Ext4(targets[j].0, targets[j].1))
        {
          formats := formats + [Ext4(targets[i].0, targets[i].1)];
        }
        actions := actions + formats;
        assert actions == PartitionActions(plan) + FormatActions(plan);
        actions := actions + [CreateDir("mount", sysroot)];
        actions := actions + [Run("mount", "mount", [rootA, sysroot], None)];
        actions := actions + [CreateDir("mount", boot)];
        actions := actions + [Run("mount", "mount", [efi, boot], None)];
        var stateMount := PathJoin(sysroot, "state");
        actions := actions + [CreateDir("mount", stateMount)];
        actions := actions + [Run("mount", "mount", [state, stateMount], None)];
      case Mutable =>
        var rootDev := PartitionDevice(disk, 2);
        actions := actions + [Ext4("ROOT", rootDev)];
        assert actions == PartitionActions(plan) + FormatActions(plan);
        actions := actions + [CreateDir("mount", sysroot)];
        actions := actions + [Run("mount", "mount", [rootDev, sysroot], None)];
        actions := actions + [CreateDir("mount", boot)];
        actions := actions + [Run("mount", "mount", [efi, boot], None)];
    }
  }

  /** `mount_map_for_plan`. */
  function MountMapForPlan(plan: PartitionPlan, root: string): seq<MountMapping> {
    var disk := plan.disk.path;
    [MountMapping(SysrootPath(root), PartitionDevice(disk, 2)), MountMapping(BootPath(root), PartitionDevice(disk, 1))]
    + if plan.mode == Ab then [MountMapping(StatePath(root), PartitionDevice(disk, 4))] else []
  }

  /** `formatted_devices`: the device of every planned partition, in order. */
  function FormattedDevices(plan: PartitionPlan): (devs: seq<string>)
    ensures |devs| == |plan.partitions|
    ensures forall i :: 0 <= i < |devs| ==> devs[i] == PartitionDevice(plan.disk.path, plan.partitions[i].index)
  {
    seq(|plan.partitions|, i requires 0 <= i < |plan.partitions| => PartitionDevice(plan.disk.path, plan.partitions[i].index))
  }

  /** The mounts the actions perform, as (target path, device) pairs in order. */
  function Mounts(actions: seq<ExecutionAction>): seq<MountMapping>
    decreases |actions|
  {
    if actions == [] then []
    else
      var a := actions[0];
      (if a.Run? && a.program == "mount" && |a.args| == 2 then [MountMapping(a.args[1], a.args[0])] else [])
      + Mounts(actions[1..])
  }

  // ------------------------------------------------------------------ gates

  /** `{:?}` of an `Option<&str>`; escaping inside the quotes is not modelled. */
  function DebugToken(token: Option<string>): string {
    match token
    case None => "None"
    case Some(t) => "Some(\"" + t + "\")"
  }

  /** `ensure_confirmation`: exactly the token "DESTROY". */
  function EnsureConfirmation(token: Option<string>): (r: Result<()>)
    ensures r.Ok? <==> token == Some(ConfirmToken)
    ensures r.Err? ==> (r.error.code == MissingConfirmation && r.error.component == "apply"
                        && r.error.observed == "received token: " + DebugToken(token))
  {
    if token == Some(ConfirmToken) then Ok(())
    else Fail(MissingConfirmation, "apply", ConfirmExpectation,
              "received token: " + DebugToken(token),
              ConfirmRemediation)
  }

  /** The gates of `execute_plan_with_reporter`: the mount root always; the
      confirmation, privilege, tools and disk checks only for a real run. */
  function Gates(plan: PartitionPlan, opts: ApplyOptions, sys: System): Result<()> {
    var _ :- EnsureMountRootSafe(opts.mount_root, sys.isProtectedPath);
    if opts.dry_run then Ok(())
    else
      var disk := plan.disk.path;
      var _ :- EnsureConfirmation(opts.confirm_token);
      var _ :- EnsureRootForApply(sys.isRoot);
      var _ :- RequiredToolsResult(sys.toolInPath);
      var _ :- EnsureBlockDevice(disk, sys.stat(disk));
      var _ :- EnsureDiskWritable(disk, sys.lsblk(ReadOnlyArgs(disk)));
      EnsureDiskNotMounted(disk, sys.lsblk(MountpointArgs(disk)))
  }

  /** `classify_phase_error`. */
  function ClassifyPhaseError(phase: string): (code: ErrorCode)
    ensures code == PartitionApplyFailed <==> phase == "partition"
    ensures code == FormatFailed <==> phase == "format"
    ensures code == MountFailed <==> phase == "mount"
    ensures code == Internal <==> phase !in {"partition", "format", "mount"}
  {
    if phase == "partition" then PartitionApplyFailed
    else if phase == "format" then FormatFailed
    else if phase == "mount" then MountFailed
    else Internal
  }

  // ------------------------------------------------------------- running

  /** What the process of one action did: the first failure among starting
      it, writing its stdin and waiting for it, or else its exit code (None
      when a signal ended it) and its captured output. */
  datatype ProcessOutcome = ProcessOutcome(
    spawnError: Option<string>,
    stdinError: Option<string>,
    waitError: Option<string>,
    code: Option<i32>,
    stdout: string,
    stderr: string)

  /** The world a real run acts on. `process(k)` is what the process of the
      k-th action does; `createDir(p)` is the error of creating `p`, if any;
      `appeared(k, d)` says whether device `d` exists within the readiness
      timeout after the k-th action. */
  datatype Runner = Runner(
    process: nat -> ProcessOutcome,
    createDir: string -> Option<string>,
    appeared: (nat, string) -> bool)

  /** The devices that have not appeared, in order. */
  function MissingDevices(devices: seq<string>, present: string -> bool): (m: seq<string>)
    ensures |m| <= |devices|
    ensures forall d :: d in m <==> d in devices && !present(d)
    decreases |devices|
  {
    if devices == [] then []
    else (if present(devices[0]) then [] else [devices[0]]) + MissingDevices(devices[1..], present)
  }

  /** Missing devices keep the order of the expected list: the devices
      missing from a concatenation are those missing from each part, in
      turn. */
  lemma {:induction false} MissingDevicesInOrder(xs: seq<string>, ys: seq<string>, present: string -> bool)
    ensures MissingDevices(xs + ys, present) == MissingDevices(xs, present) + MissingDevices(ys, present)
    ensures forall d :: MissingDevices([d], present) == (if present(d) then [] else [d])
    decreases |xs|
  {
    if xs == [] {
      assert xs + ys == ys;
    } else {
      assert (xs + ys)[1..] == xs[1..] + ys;
      MissingDevicesInOrder(xs[1..], ys, present);
    }
  }

  /** `wait_for_partition_devices`, by the state at the deadline. */
  function WaitForPartitionDevices(devices: seq<string>, present: string -> bool): (r: Result<()>)
    ensures r.Ok? <==> forall d :: d in devices ==> present(d)
    ensures r.Err? ==> (r.error.code == PartitionApplyFailed
                        && r.error.expectation == ReadinessExpectation
                        && r.error.observed == "missing devices after " + ReadinessTimeout + ": "
                                               + Join(MissingDevices(devices, present), ", "))
  {
    var missing := MissingDevices(devices, present);
    if missing == [] then Ok(())
    else
      assert missing[0] in missing;
      Fail(PartitionApplyFailed, "exec", ReadinessExpectation,
              "missing devices after " + ReadinessTimeout + ": " + Join(missing, ", "),
              ReadinessRemediation)
  }

  function NonEmpty(s: string): (o: Option<string>)
    ensures o.None? <==> s == ""
  {
    if s == "" then None else Some(s)
  }

  /** The first failure among starting a program, writing its stdin (when
      it has one) and waiting for it. */
  function LaunchError(phase: string, program: string, hasStdin: bool, p: ProcessOutcome): (e: Option<RecpartError>)
    ensures e.None? <==> p.spawnError.None? && (hasStdin ==> p.stdinError.None?) && p.waitError.None?
    ensures e.Some? ==> e.value.code == ClassifyPhaseError(phase) && e.value.component == "exec"
    ensures p.spawnError.Some? ==>
      e.Some? && e.value.expectation == program + " starts successfully" && e.value.observed == p.spawnError.value
    ensures p.spawnError.None? && hasStdin && p.stdinError.Some? ==>
      e.Some? && e.value.expectation == program + " accepts stdin payload" && e.value.observed == p.stdinError.value
    ensures p.spawnError.None? && (hasStdin ==> p.stdinError.None?) && p.waitError.Some? ==>
      e.Some? && e.value.expectation == program + " exits cleanly" && e.value.observed == p.waitError.value
  {
    var code := ClassifyPhaseError(phase);
    if p.spawnError.Some? then
      Some(RecpartError(code, "exec", program + " starts successfully", p.spawnError.value,
                        SpawnRemediation))
    else if hasStdin && p.stdinError.Some? then
      Some(RecpartError(code, "exec", program + " accepts stdin payload", p.stdinError.value,
                        StdinRemediation))
    else if p.waitError.Some? then
      Some(RecpartError(code, "exec", program + " exits cleanly", p.waitError.value,
                        WaitRemediation))
    else None
  }

  /** The failure of a program that ran but did not exit with status 0; a
      missing exit code is shown as -1. */
  function StatusError(plan: PartitionPlan, root: string, phase: string, program: string, p: ProcessOutcome)
    : (e: Option<RecpartError>)
    ensures e.None? <==> p.code == Some(0)
    ensures e.Some? ==> (e.value.code == ClassifyPhaseError(phase)
      && e.value.observed == "exit " + IntToString(p.code.GetOr(-1)) + "; stderr: " + Trim(p.stderr))
  {
    if p.code == Some(0) then None
    else
      Some(RecpartError(ClassifyPhaseError(phase), "exec", program + " exits with status 0",
                        "exit " + IntToString(p.code.GetOr(-1)) + "; stderr: " + Trim(p.stderr),
                        "Fix the reported " + phase + " failure and retry. Disk: " + plan.disk.path
                        + PartialMountsNote + root + ", unmount them before retry."))
  }

  /** The readiness wait after a successful program of the partition phase;
      nothing to wait for in the other phases. */
  function ReadinessError(plan: PartitionPlan, runner: Runner, k: nat, phase: string): (e: Option<RecpartError>)
    ensures e.None? <==> (phase == "partition" ==> forall d :: d in FormattedDevices(plan) ==> runner.appeared(k, d))
    ensures e.Some? ==> (e.value.code == PartitionApplyFailed && phase == "partition"
                         && e.value.expectation == ReadinessExpectation)
  {
    if phase != "partition" then None
    else
      var w := WaitForPartitionDevices(FormattedDevices(plan), d => runner.appeared(k, d));
      if w.Ok? then None else Some(w.error)
  }

  /** `run_action` on a directory to create. */
  function RunCreateDir(runner: Runner, phase: string, path: string): (r: Result<CommandRecord>)
    ensures r.Ok? <==> runner.createDir(path).None?
    ensures r.Err? ==> r.error.code == MountFailed
    ensures r.Ok? ==> r.value == CommandRecord(phase, "mkdir -p " + path, "mkdir", ["-p", path], Some(0), None, None, false)
  {
    match runner.createDir(path)
    case Some(msg) =>
      Fail(MountFailed, "exec", "directory '" + path + "' can be created", msg,
           CreateDirRemediation)
    case None => Ok(CommandRecord(phase, "mkdir -p " + path, "mkdir", ["-p", path], Some(0), None, None, false))
  }

  /** `run_action` on a program, which is the k-th action. */
  function RunProgram(plan: PartitionPlan, root: string, runner: Runner, k: nat, action: ExecutionAction)
    : (r: Result<CommandRecord>)
    requires action.Run?
    ensures r.Err? ==> r.error.code == ClassifyPhaseError(action.phase)
    ensures var p := runner.process(k);
      r.Ok? <==> LaunchError(action.phase, action.program, action.stdin.Some?, p).None? && p.code == Some(0)
                 && ReadinessError(plan, runner, k, action.phase).None?
    ensures r.Ok? ==>
      var p := runner.process(k);
      r.value == CommandRecord(action.phase, Rendered(action), action.program, action.args, Some(0),
                               NonEmpty(Trim(p.stdout)), NonEmpty(Trim(p.stderr)), false)
  {
    var p := runner.process(k);
    var launch := LaunchError(action.phase, action.program, action.stdin.Some?, p);
    if launch.Some? then Err(launch.value)
    else
      var status := StatusError(plan, root, action.phase, action.program, p);
      if status.Some? then Err(status.value)
      else
        var ready := ReadinessError(plan, runner, k, action.phase);
        if ready.Some? then Err(ready.value)
        else
          Ok(CommandRecord(action.phase, Rendered(action), action.program, action.args, Some(p.code.GetOr(-1)),
                           NonEmpty(Trim(p.stdout)), NonEmpty(Trim(p.stderr)), false))
  }

  /** `run_action` on the k-th action: its error, or the record of its
      success. */
  function RunAction(plan: PartitionPlan, root: string, runner: Runner, k: nat, action: ExecutionAction)
    : (r: Result<CommandRecord>)
    ensures r.Err? ==> r.error.code == (if action.CreateDir? then MountFailed else ClassifyPhaseError(action.phase))
    ensures r.Ok? ==> (r.value.phase == Phase(action) && r.value.command == Rendered(action)
                       && r.value.program == ProgramName(action) && r.value.args == Args(action)
                       && r.value.status == Some(0) && !r.value.dry_run)
  {
    match action
    case CreateDir(phase, path) => RunCreateDir(runner, phase, path)
    case Run(_, _, _, _) => RunProgram(plan, root, runner, k, action)
  }

  /** Where a real run stands after some actions: the records of the actions
      that succeeded, and the error that stopped it, if any. */
  datatype Progress = Progress(records: seq<CommandRecord>, failed: Option<RecpartError>)

  /** `run_action` as a step function: the k-th action in its run. */
  function RunStep(plan: PartitionPlan, root: string, runner: Runner): (nat, ExecutionAction) -> Result<CommandRecord> {
    (k: nat, a: ExecutionAction) => RunAction(plan, root, runner, k, a)
  }

  /** What each action would give when run in its place. */
  function Outcomes(run: (nat, ExecutionAction) -> Result<CommandRecord>, actions: seq<ExecutionAction>)
    : (rs: seq<Result<CommandRecord>>)
    ensures |rs| == |actions|
  {
    seq(|actions|, k requires 0 <= k < |actions| => run(k, actions[k]))
  }

  /** The real-run loop over the first `n` outcomes: records kept in order
      until the first error, which ends the run. */
  function Progression(results: seq<Result<CommandRecord>>, n: nat): Progress
    requires n <= |results|
  {
    if n == 0 then Progress([], None)
    else
      var p := Progression(results, n - 1);
      if p.failed.Some? then p
      else if results[n - 1].Err? then Progress(p.records, Some(results[n - 1].error))
      else Progress(p.records + [results[n - 1].value], None)
  }

  /** The real-run loop over all the actions. */
  function RunActions(plan: PartitionPlan, root: string, runner: Runner, actions: seq<ExecutionAction>): Progress {
    var outs := Outcomes(RunStep(plan, root, runner), actions);
    Progression(outs, |outs|)
  }

  function DryRunRecord(a: ExecutionAction): CommandRecord {
    CommandRecord(Phase(a), Rendered(a), ProgramName(a), Args(a), None, None, None, true)
  }

  function DryRunRecords(actions: seq<ExecutionAction>): seq<CommandRecord> {
    seq(|actions|, i requires 0 <= i < |actions| => DryRunRecord(actions[i]))
  }

  function ResultFor(plan: PartitionPlan, root: string, dryRun: bool, steps: seq<CommandRecord>): ApplyResult {
    var mounted := MountMapForPlan(plan, root);
    ApplyResult(ApplySchemaVersion, plan.mode, plan.layout_request, plan.resolved_layout, plan.disk, dryRun, steps,
                plan.partitions, FormattedDevices(plan), mounted, HandoffFor(plan, mounted), [])
  }

  /** What `execute_plan_with_reporter` returns. */
  function Apply(plan: PartitionPlan, opts: ApplyOptions, sys: System, runner: Runner): Result<ApplyResult> {
    var _ :- Gates(plan, opts, sys);
    var actions := ApplyActions(plan, opts.mount_root);
    if opts.dry_run then Ok(ResultFor(plan, opts.mount_root, true, DryRunRecords(actions)))
    else
      var p := RunActions(plan, opts.mount_root, runner, actions);
      if p.failed.Some? then Err(p.failed.value) else Ok(ResultFor(plan, opts.mount_root, false, p.records))
  }

  /** The records the reporter is shown: those of the actions a real run
      completed; none when a gate fails or in a dry run. */
  function Reported(plan: PartitionPlan, opts: ApplyOptions, sys: System, runner: Runner): seq<CommandRecord> {
    if Gates(plan, opts, sys).Err? || opts.dry_run then []
    else
      var actions := ApplyActions(plan, opts.mount_root);
      RunActions(plan, opts.mount_root, runner, actions).records
  }

  /** The observer a caller may pass to see each record as it is produced. */
  class Reporter {
    var seen: seq<CommandRecord>

    constructor ()
      ensures seen == []
    {
      seen := [];
    }

    method Report(record: CommandRecord)
      modifies this
      ensures seen == old(seen) + [record]
    {
      seen := seen + [record];
    }
  }

  /** `execute_plan_with_reporter`; `execute_plan` is the call with no
      reporter. */
  method ExecutePlanWithReporter(plan: PartitionPlan, opts: ApplyOptions, sys: System, runner: Runner,
                                 reporter: Reporter?)
    returns (r: Result<ApplyResult>)
    modifies reporter
    ensures r == Apply(plan, opts, sys, runner)
    ensures reporter != null ==> reporter.seen == old(reporter.seen) + Reported(plan, opts, sys, runner)
  {
    var gate := Gates(plan, opts, sys);
    if gate.Err? {
      return Err(gate.error);
    }
    var root := opts.mount_root;
    var actions := BuildApplyActions(plan, root);
    var mounted := MountMapForPlan(plan, root);
    var handoff := BuildHandoff(plan, mounted);
    var devices := FormattedDevices(plan);
    if opts.dry_run {
      var steps := seq(|actions|, i requires 0 <= i < |actions| => DryRunRecord(actions[i]));
      return Ok(ApplyResult(ApplySchemaVersion, plan.mode, plan.layout_request, plan.resolved_layout, plan.disk, true,
                            steps, plan.partitions, devices, mounted, handoff, []));
    }
    var progress := RunAll(RunStep(plan, root, runner), actions, reporter);
    if progress.failed.Some? {
      return Err(progress.failed.value);
    }
    r := Ok(ApplyResult(ApplySchemaVersion, plan.mode, plan.layout_request, plan.resolved_layout, plan.disk, false,
                        progress.records, plan.partitions, devices, mounted, handoff, []));
  }

  /** The real-run loop: each action in order, the reporter called on each
      record before it is kept, and the first failure ending the run. */
  method RunAll(run: (nat, ExecutionAction) -> Result<CommandRecord>, actions: seq<ExecutionAction>,
                reporter: Reporter?)
    returns (p: Progress)
    modifies reporter
    ensures p == Progression(Outcomes(run, actions), |actions|)
    ensures reporter != null ==> reporter.seen == old(reporter.seen) + p.records
  {
    ghost var outs := Outcomes(run, actions);
    var records := [];
    for i := 0 to |actions|
      invariant Progression(outs, i) == Progress(records, None)
      invariant reporter != null ==> reporter.seen == old(reporter.seen) + records
    {
      var record := run(i, actions[i]);
      assert record == outs[i];
      if record.Err? {
        FailureStops(outs, i + 1, |outs|);
        return Progress(records, Some(record.error));
      }
      if reporter != null {
        reporter.Report(record.value);
      }
      records := records + [record.value];
    }
    p := Progress(records, None);
  }

  /** Once an outcome has been an error, further outcomes change nothing. */
  lemma {:induction false} FailureStops(results: seq<Result<CommandRecord>>, m: nat, n: nat)
    requires m <= n <= |results|
    requires Progression(results, m).failed.Some?
    ensures Progression(results, n) == Progression(results, m)
    decreases n - m
  {
    if m < n {
      FailureStops(results, m, n - 1);
    }
  }

  // ------------------------------------------------------------- properties

  /** The phases come in order, partition then format then mount: three
      partition actions, then four format actions and six mount actions in AB
      and two and four in Mutable. */
  lemma ActionPhases(plan: PartitionPlan, root: string)
    ensures var a := ApplyActions(plan, root);
      var f := if plan.mode == Ab then 4 else 2;
      var m := if plan.mode == Ab then 6 else 4;
      |a| == 3 + f + m
      && forall i :: 0 <= i < |a| ==>
        Phase(a[i]) == (if i < 3 then "partition" else if i < 3 + f then "format" else "mount")
  {
    var a := ApplyActions(plan, root);
    var f := if plan.mode == Ab then 4 else 2;
    forall i | 0 <= i < |a|
      ensures Phase(a[i]) == (if i < 3 then "partition" else if i < 3 + f then "format" else "mount")
    {
      if i < 3 {
        assert a[i] == PartitionActions(plan)[i];
      } else if i < 3 + f {
        assert a[i] == FormatActions(plan)[i - 3];
      } else {
        assert a[i] == MountActions(plan, root)[i - 3 - f];
      }
    }
  }

  /** The partition phase runs wipefs, sfdisk and udevadm on the plan's disk,
      and the only action fed a standard input is sfdisk, fed the plan's
      script. */
  lemma PartitionPrograms(plan: PartitionPlan, root: string)
    ensures var a := ApplyActions(plan, root);
      |a| >= 3 && ProgramName(a[0]) == "wipefs" && ProgramName(a[1]) == "sfdisk" && ProgramName(a[2]) == "udevadm"
      && Args(a[1]) == [plan.disk.path] && a[1].stdin == Some(plan.sfdisk_script)
      && forall i :: 0 <= i < |a| && a[i].Run? && a[i].stdin.Some? ==> i == 1
  {
    var a := ApplyActions(plan, root);
    var f := if plan.mode == Ab then 4 else 2;
    forall i | 0 <= i < |a| ensures a[i].Run? && a[i].stdin.Some? ==> i == 1 {
      if 3 <= i < 3 + f {
        assert a[i] == FormatActions(plan)[i - 3];
      } else if i >= 3 + f {
        assert a[i] == MountActions(plan, root)[i - 3 - f];
      }
    }
  }

  /** Every mount comes right after the creation of its target directory. */
  lemma MkdirBeforeMount(plan: PartitionPlan, root: string)
    ensures var a := ApplyActions(plan, root);
      forall i :: 0 <= i < |a| && a[i].Run? && a[i].program == "mount" ==>
        i > 0 && |a[i].args| == 2 && a[i - 1] == CreateDir("mount", a[i].args[1])
  {
    var a := ApplyActions(plan, root);
    var f := if plan.mode == Ab then 4 else 2;
    var ms := MountActions(plan, root);
    forall i | 0 <= i < |a|
      ensures a[i].Run? && a[i].program == "mount" ==>
        i > 0 && |a[i].args| == 2 && a[i - 1] == CreateDir("mount", a[i].args[1])
    {
      if i < 3 {
        assert a[i] == PartitionActions(plan)[i];
      } else if i < 3 + f {
        assert a[i] == FormatActions(plan)[i - 3];
      } else {
        assert a[i] == ms[i - 3 - f];
        if i > 3 + f {
          assert a[i - 1] == ms[i - 4 - f];
        }
      }
    }
  }

  /** The mounts the actions perform are exactly the mount map: sysroot on
      partition 2, sysroot/boot on partition 1, and in AB sysroot/state on
      partition 4. */
  lemma MountMapMatchesActions(plan: PartitionPlan, root: string)
    ensures Mounts(ApplyActions(plan, root)) == MountMapForPlan(plan, root)
  {
    MountsOfParts(PartitionActions(plan), FormatActions(plan), MountActions(plan, root));
    MountsOfNone(PartitionActions(plan));
    MountsOfNone(FormatActions(plan));
    MountsOfMountActions(plan, root);
  }

  /** The mount map: sysroot on partition 2, sysroot/boot on partition 1 and,
      in AB only, sysroot/state on partition 4. */
  lemma MountMapShape(plan: PartitionPlan, root: string)
    ensures var m := MountMapForPlan(plan, root);
      |m| == (if plan.mode == Ab then 3 else 2)
      && m[0] == MountMapping(SysrootPath(root), PartitionDevice(plan.disk.path, 2))
      && m[1] == MountMapping(PathJoin(SysrootPath(root), "boot"), PartitionDevice(plan.disk.path, 1))
      && (plan.mode == Ab ==> m[2] == MountMapping(PathJoin(SysrootPath(root), "state"), PartitionDevice(plan.disk.path, 4)))
  {
  }

  lemma MountsOfMountActions(plan: PartitionPlan, root: string)
    ensures Mounts(MountActions(plan, root)) == MountMapForPlan(plan, root)
  {
    var disk := plan.disk.path;
    var m1 := MountAt(PartitionDevice(disk, 2), SysrootPath(root));
    var m2 := MountAt(PartitionDevice(disk, 1), BootPath(root));
    var m3 := if plan.mode == Ab then MountAt(PartitionDevice(disk, 4), StatePath(root)) else [];
    assert MountActions(plan, root) == m1 + m2 + m3;
    MountsOfParts(m1, m2, m3);
    MountsOfPair(PartitionDevice(disk, 2), SysrootPath(root));
    MountsOfPair(PartitionDevice(disk, 1), BootPath(root));
    if plan.mode == Ab {
      MountsOfPair(PartitionDevice(disk, 4), StatePath(root));
    }
  }

  lemma {:induction false} MountsAppend(x: seq<ExecutionAction>, y: seq<ExecutionAction>)
    ensures Mounts(x + y) == Mounts(x) + Mounts(y)
    decreases |x|
  {
    if x == [] {
      assert x + y == y;
    } else {
      assert (x + y)[0] == x[0];
      assert (x + y)[1..] == x[1..] + y;
      MountsAppend(x[1..], y);
    }
  }

  lemma MountsOfParts(x: seq<ExecutionAction>, y: seq<ExecutionAction>, z: seq<ExecutionAction>)
    ensures Mounts(x + y + z) == Mounts(x) + Mounts(y) + Mounts(z)
  {
    MountsAppend(x + y, z);
    MountsAppend(x, y);
  }

  lemma MountsOfPair(dev: string, path: string)
    ensures Mounts(MountAt(dev, path)) == [MountMapping(path, dev)]
  {
    var m := MountAt(dev, path);
    assert m[1..][1..] == [];
    assert Mounts(m[1..]) == [MountMapping(path, dev)] + Mounts(m[1..][1..]);
  }

  lemma MountsOfNone(x: seq<ExecutionAction>)
    requires forall i :: 0 <= i < |x| ==> x[i].Run? && x[i].program != "mount"
    ensures Mounts(x) == []
    decreases |x|
  {
    if x != [] {
      MountsOfNone(x[1..]);
    }
  }

  /** A plan that was built lists the templates of its own layout, of its
      own mode. */
  predicate Consistent(plan: PartitionPlan) {
    plan.partitions == BuildTemplates(plan.resolved_layout) && plan.resolved_layout.mode == plan.mode
  }

  lemma BuiltPlanConsistent(disk: DiskTarget, mode: InstallMode, request: LayoutRequest)
    requires BuildPlanWithLayoutRequest(disk, mode, request).Ok?
    ensures Consistent(BuildPlanWithLayoutRequest(disk, mode, request).value)
  {
    ResolveWellFormed(mode, request);
  }

  /** In a consistent plan, each format action formats one planned
      partition, in order: its device is the partition's device, its program
      is mkfs for the partition's filesystem and its label argument is the
      partition's label. */
  lemma FormatMatchesPlan(plan: PartitionPlan)
    requires Consistent(plan)
    ensures var f := FormatActions(plan);
      |f| == |plan.partitions| == |FormattedDevices(plan)|
      && forall i :: 0 <= i < |f| ==>
        var args := f[i].args;
        |args| >= 2 && args[|args| - 1] == FormattedDevices(plan)[i] && args[|args| - 2] == plan.partitions[i].part_label
        && f[i].program == "mkfs." + plan.partitions[i].filesystem
  {
    TemplatesShape(plan.resolved_layout);
    var f := FormatActions(plan);
    forall i | 0 <= i < |f|
      ensures var args := f[i].args;
        |args| >= 2 && args[|args| - 1] == FormattedDevices(plan)[i] && args[|args| - 2] == plan.partitions[i].part_label
        && f[i].program == "mkfs." + plan.partitions[i].filesystem
    {
      assert Labels(plan.partitions)[i] == plan.partitions[i].part_label;
    }
  }

  /** A dry run checks only the mount root: it succeeds exactly when the
      mount root is safe, whatever the confirmation, the privileges, the tools
      and the disk, and then lists one record per action, in order, showing
      the rendered command with no status or output. Nothing is reported. */
  lemma DryRunRecordsActions(plan: PartitionPlan, opts: ApplyOptions, sys: System, runner: Runner)
    requires opts.dry_run
    ensures Apply(plan, opts, sys, runner).Ok? <==> EnsureMountRootSafe(opts.mount_root, sys.isProtectedPath).Ok?
    ensures Apply(plan, opts, sys, runner).Ok? ==>
      var a := ApplyActions(plan, opts.mount_root);
      var steps := Apply(plan, opts, sys, runner).value.steps;
      Apply(plan, opts, sys, runner).value.dry_run
      && |steps| == |a|
      && forall i :: 0 <= i < |a| ==>
        steps[i].phase == Phase(a[i]) && steps[i].command == Rendered(a[i]) && steps[i].program == ProgramName(a[i])
        && steps[i].args == Args(a[i]) && steps[i].status.None? && steps[i].stdout.None? && steps[i].stderr.None?
        && steps[i].dry_run
    ensures Reported(plan, opts, sys, runner) == []
  {
  }

  /** The gates run in a fixed order and the first one that fails decides
      the error: the mount root, then for a real run the confirmation token,
      root privileges, the required tools, the block device, the read-only
      flag and the mount state of the disk; a real run passes them exactly
      when all seven pass. */
  lemma GatesInOrder(plan: PartitionPlan, opts: ApplyOptions, sys: System)
    ensures var mountRoot := EnsureMountRootSafe(opts.mount_root, sys.isProtectedPath);
      var confirm := EnsureConfirmation(opts.confirm_token);
      var isRoot := EnsureRootForApply(sys.isRoot);
      var tools := RequiredToolsResult(sys.toolInPath);
      var disk := plan.disk.path;
      var block := EnsureBlockDevice(disk, sys.stat(disk));
      var writable := EnsureDiskWritable(disk, sys.lsblk(ReadOnlyArgs(disk)));
      var unmounted := EnsureDiskNotMounted(disk, sys.lsblk(MountpointArgs(disk)));
      var g := Gates(plan, opts, sys);
      (mountRoot.Err? ==> g == Err(mountRoot.error))
      && (opts.dry_run ==> g == mountRoot)
      && (!opts.dry_run && mountRoot.Ok? ==>
        (confirm.Err? ==> g == Err(confirm.error))
        && (confirm.Ok? && isRoot.Err? ==> g == Err(isRoot.error))
        && (confirm.Ok? && isRoot.Ok? && tools.Err? ==> g == Err(tools.error))
        && (confirm.Ok? && isRoot.Ok? && tools.Ok? && block.Err? ==> g == Err(block.error))
        && (confirm.Ok? && isRoot.Ok? && tools.Ok? && block.Ok? && writable.Err? ==> g == Err(writable.error))
        && (confirm.Ok? && isRoot.Ok? && tools.Ok? && block.Ok? && writable.Ok? ==> g == unmounted))
  {
  }

  /** A failing gate stops the run before any action: the result is that
      gate's error, and nothing is reported. */
  lemma GateFailureRunsNothing(plan: PartitionPlan, opts: ApplyOptions, sys: System, runner: Runner)
    requires Gates(plan, opts, sys).Err?
    ensures Apply(plan, opts, sys, runner) == Err(Gates(plan, opts, sys).error)
    ensures Reported(plan, opts, sys, runner) == []
  {
  }

  /** The loop keeps the records of the outcomes before the first error, in
      order, and stops with that error; without an error it keeps them all. */
  lemma {:induction false} ProgressionCharacterized(results: seq<Result<CommandRecord>>, n: nat)
    requires n <= |results|
    ensures var p := Progression(results, n);
      (p.failed.None? ==>
        |p.records| == n && forall i :: 0 <= i < n ==> results[i] == Ok(p.records[i]))
      && (p.failed.Some? ==>
        var j := |p.records|;
        j < n && results[j] == Err(p.failed.value) && forall i :: 0 <= i < j ==> results[i] == Ok(p.records[i]))
  {
    if n > 0 {
      ProgressionCharacterized(results, n - 1);
    }
  }

  /** When a real run fails after its gates, some action j failed: the error
      is that action's, classified by its phase, every action before it
      succeeded with the records the reporter was shown, in order, and no
      later action ran. */
  lemma RealRunFailure(plan: PartitionPlan, opts: ApplyOptions, sys: System, runner: Runner)
    requires Gates(plan, opts, sys).Ok? && !opts.dry_run && Apply(plan, opts, sys, runner).Err?
    ensures var a := ApplyActions(plan, opts.mount_root);
      var seen := Reported(plan, opts, sys, runner);
      var j := |seen|;
      var e := Apply(plan, opts, sys, runner).error;
      j < |a| && RunAction(plan, opts.mount_root, runner, j, a[j]) == Err(e)
      && e.code == ClassifyPhaseError(Phase(a[j]))
      && forall i :: 0 <= i < j ==> RunAction(plan, opts.mount_root, runner, i, a[i]) == Ok(seen[i])
  {
    var root := opts.mount_root;
    var a := ApplyActions(plan, root);
    var outs := Outcomes(RunStep(plan, root, runner), a);
    ProgressionCharacterized(outs, |outs|);
    var j := |Reported(plan, opts, sys, runner)|;
    assert outs[j] == RunAction(plan, root, runner, j, a[j]);
    CreateDirsAreMounts(plan, root);
    forall i | 0 <= i < j ensures RunAction(plan, root, runner, i, a[i]) == Ok(Reported(plan, opts, sys, runner)[i]) {
      assert outs[i] == RunAction(plan, root, runner, i, a[i]);
    }
  }

  /** A real run that succeeds ran every action: one record per action, in
      order, each with status 0, and the reporter was shown exactly those
      records. */
  lemma RealRunSuccess(plan: PartitionPlan, opts: ApplyOptions, sys: System, runner: Runner)
    requires !opts.dry_run && Apply(plan, opts, sys, runner).Ok?
    ensures var a := ApplyActions(plan, opts.mount_root);
      var steps := Apply(plan, opts, sys, runner).value.steps;
      |steps| == |a| && Reported(plan, opts, sys, runner) == steps
      && !Apply(plan, opts, sys, runner).value.dry_run
      && forall i :: 0 <= i < |a| ==>
        RunAction(plan, opts.mount_root, runner, i, a[i]) == Ok(steps[i])
        && steps[i].phase == Phase(a[i]) && steps[i].command == Rendered(a[i]) && steps[i].status == Some(0)
  {
    var root := opts.mount_root;
    var a := ApplyActions(plan, root);
    var outs := Outcomes(RunStep(plan, root, runner), a);
    ProgressionCharacterized(outs, |outs|);
    var steps := Apply(plan, opts, sys, runner).value.steps;
    forall i | 0 <= i < |a|
      ensures RunAction(plan, root, runner, i, a[i]) == Ok(steps[i])
    {
      assert outs[i] == RunAction(plan, root, runner, i, a[i]);
    }
  }

  /** Every directory creation belongs to the mount phase, so any failing
      action fails with the code of its own phase. */
  lemma CreateDirsAreMounts(plan: PartitionPlan, root: string)
    ensures var a := ApplyActions(plan, root);
      forall i :: 0 <= i < |a| && a[i].CreateDir? ==> a[i].phase == "mount"
  {
    var a := ApplyActions(plan, root);
    var f := if plan.mode == Ab then 4 else 2;
    forall i | 0 <= i < |a| ensures a[i].CreateDir? ==> a[i].phase == "mount" {
      if i < 3 {
        assert a[i] == PartitionActions(plan)[i];
      } else if i < 3 + f {
        assert a[i] == FormatActions(plan)[i - 3];
      } else {
        assert a[i] == MountActions(plan, root)[i - 3 - f];
      }
    }
  }

  /** The readiness wait follows wipefs too: when wipefs succeeds but a
      planned partition device is not there within the timeout, the run fails
      with PartitionApplyFailed before sfdisk writes the new table, and
      nothing is reported. */
  lemma ReadinessWaitFollowsWipefs(plan: PartitionPlan, opts: ApplyOptions, sys: System, runner: Runner, dev: string)
    requires Gates(plan, opts, sys).Ok? && !opts.dry_run
    requires var p := runner.process(0);
      p.spawnError.None? && p.waitError.None? && p.code == Some(0)
    requires dev in FormattedDevices(plan) && !runner.appeared(0, dev)
    ensures Apply(plan, opts, sys, runner).Err?
    ensures Apply(plan, opts, sys, runner).error.code == PartitionApplyFailed
    ensures Apply(plan, opts, sys, runner).error.expectation == ReadinessExpectation
    ensures Reported(plan, opts, sys, runner) == []
  {
    var root := opts.mount_root;
    var a := ApplyActions(plan, root);
    var outs := Outcomes(RunStep(plan, root, runner), a);
    assert a[0] == Run("partition", "wipefs", ["-a", "--force", plan.disk.path], None);
    assert outs[0] == RunAction(plan, root, runner, 0, a[0]);
    PartitionSuccessWaits(plan, root, runner, 0, a[0], dev);
    FailureStops(outs, 1, |outs|);
    assert RunActions(plan, root, runner, a) == Progress([], Some(outs[0].error));
  }

  /** A partition-phase program that exits with status 0 still fails when a
      planned device does not appear. */
  lemma PartitionSuccessWaits(plan: PartitionPlan, root: string, runner: Runner, k: nat, action: ExecutionAction,
                              dev: string)
    requires action.Run? && action.phase == "partition" && action.stdin.None?
    requires var p := runner.process(k);
      p.spawnError.None? && p.waitError.None? && p.code == Some(0)
    requires dev in FormattedDevices(plan) && !runner.appeared(k, dev)
    ensures var r := RunAction(plan, root, runner, k, action);
      r.Err? && r.error.code == PartitionApplyFailed
      && r.error.expectation == ReadinessExpectation
  {
    var p := runner.process(k);
    assert LaunchError(action.phase, action.program, false, p).None?;
    assert StatusError(plan, root, action.phase, action.program, p).None?;
    var ready := ReadinessError(plan, runner, k, action.phase);
    assert ready.Some?;
    assert RunProgram(plan, root, runner, k, action) == Err(ready.value);
  }

  /** A successful apply returns the plan's mounts and partitions and the
      handoff for those mounts, with no warnings. */
  lemma ApplyResultShape(plan: PartitionPlan, opts: ApplyOptions, sys: System, runner: Runner)
    requires Apply(plan, opts, sys, runner).Ok?
    ensures var r := Apply(plan, opts, sys, runner).value;
      r == ResultFor(plan, opts.mount_root, opts.dry_run, r.steps)
      && r.mounted == MountMapForPlan(plan, opts.mount_root) && r.partition_map == plan.partitions
      && r.formatted_devices == FormattedDevices(plan) && r.handoff == HandoffFor(plan, r.mounted)
      && r.dry_run == opts.dry_run && r.warnings == [] && r.schema_version == 1
  {
  }

  /** The sysroot under an absolute mount root ends in "/sysroot". */
  lemma SysrootEndsWith(root: string)
    requires IsAbsolute(root)
    ensures EndsWith(SysrootPath(root), "/sysroot")
  {
    var p := SysrootPath(root);
    if root[|root| - 1] == '/' {
      assert p == root[..|root| - 1] + "/sysroot";
    } else {
      assert p == root + "/sysroot";
    }
  }

  /** A successful apply hands off at the sysroot under the mount root. */
  lemma HandoffAtSysroot(plan: PartitionPlan, opts: ApplyOptions, sys: System, runner: Runner)
    requires Apply(plan, opts, sys, runner).Ok?
    ensures Apply(plan, opts, sys, runner).value.handoff.install_target == SysrootPath(opts.mount_root)
  {
    ApplyResultShape(plan, opts, sys, runner);
    assert EnsureMountRootSafe(opts.mount_root, sys.isProtectedPath).Ok?;
    SysrootEndsWith(opts.mount_root);
    var m := MountMapForPlan(plan, opts.mount_root);
    assert FirstSysroot(m) == 0;
  }
}
