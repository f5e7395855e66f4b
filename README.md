# recpart in Dafny

This project models the core of `recpart`, the LevitateOS disk-partitioning installer. The model covers five areas:

- **Layout policy.** `recpart` turns a sparse layout request and an install mode into a resolved layout. The mode is A/B dual-slot (`ab`) or a single writable root (`mutable`).
- **Plan builder.** It turns the resolved layout into a partition plan: the templates, the sfdisk script and the capacity checks.
- **Apply pipeline.** It turns the plan into an ordered list of partition, format and mount actions. A real run is guarded by safety gates and stops at the first failure. It returns an audit trail and a handoff record that tells the next installer stage where the new system is mounted.
- **Preflight.** The checks on the target disk and the environment are modelled as decisions over the outputs of `lsblk` and similar queries.
- **Wizard rules.** The interactive wizard's selection, yes/no, confirmation, step-count and terminal-size rules are included.

There is one Dafny module per source file, plus `Strings`:

- `Types`, `Errors`, `Policy`, `Plan`, `Exec`, `Handoff`, `Preflight` and `Tui` follow their source files.
- `Strings` holds the parts of the Rust standard library the core relies on:
  - `trim` and `split_whitespace` over Unicode White_Space;
  - `to_ascii_lowercase`;
  - `lines`;
  - decimal rendering;
  - `u64`/`u32`/`u16`/`usize` parsing with an optional `+` and overflow;
  - lexicographic string order.

Where the source mutates local state step by step, the model is a `method` proved equal to a specification function. The properties are then proved about that function. This applies to:

- `resolve_layout_request`;
- `build_sfdisk_script`;
- `build_apply_actions`;
- the real-run loop, together with its observer;
- `build_handoff`;
- the `ensure_required_tools` loop;
- the `list_disk_inventory` row loop;
- the wizard's re-prompting loops.

The run observer and the wizard's progress counter are classes.

The world outside the program is passed in as oracles:

- `Preflight.System`: `is_protected_path`, `is_root`, the `PATH` lookup, `stat`, each `lsblk` invocation by argument list, `canonicalize`, and the decoding of `lsblk -J` output.
- `Exec.Runner`:
  - what the process of the k-th action did (spawn, stdin, wait, exit status and output);
  - whether `create_dir_all` failed;
  - which partition devices exist once the k-th action has run.
- `Tui`: the lines the terminal delivers.

Integers of fixed width are subset types of `int` (`u8`, `u16`, `u32`, `u64`, `i32`). Where the source adds `u32` values, the model computes over `nat` and models the wrapped sum separately (see Findings).

The readiness wait runs after every successful partition-phase program, including `wipefs` and `sfdisk`, not once at the end of the phase (src/exec.rs:413-415). `Exec.ReadinessWaitFollowsWipefs` and `Exec.PartitionSuccessWaits` state that behaviour.

## Model

| member | source | states |
|---|---|---|
| Types.ModeName | src/types.rs:18-25 | Displays a mode as "ab" or "mutable". |
| Types.ModeFromName | src/types.rs:10-16 | Exactly the two names "ab" and "mutable" denote a mode. |
| Types.ModeNameRoundTrip | src/types.rs:18-25 | Displaying a mode and reading the name back gives the same mode, so the two names are distinct. |
| Errors.Code | src/error.rs:22-38 | Every code is a four-character "E0.." string. |
| Errors.ExitCode | src/error.rs:40-42 | The exit code lies in 1..12 and is the variant's position in declaration order. |
| Errors.CodeSpellsExitCode | src/error.rs:7-42 | Each code is "E" followed by the exit code written in three digits (E001 to E012). |
| Errors.CodeInjective | src/error.rs:24-37 | Distinct variants have distinct codes. |
| Errors.Payload | src/error.rs:73-82 | The payload has schema version 1 and the variant's code, and copies the four text fields verbatim. |
| Errors.PayloadRoundTrip | src/error.rs:57-82 | An error can be rebuilt from its payload, so `new` and `payload` lose nothing. |
| Errors.ErrorText | src/error.rs:85-97 | The displayed error starts with its code followed by ": [". |
| Errors.Fail | src/error.rs:57-71 | `RecpartError::new` fails with an error that stores code, component, expectation, observed and remediation unchanged. |
| Policy.PolicyDefaults | src/policy.rs:4-29 | Gives EFI 1024 MB in both modes. AB gets root_a and root_b of 20480 MB and no state size. Mutable gets no root size. The mode is kept and the layout is well formed. |
| Policy.ValidatePositive | src/policy.rs:169-184 | Accepts a size exactly when it is positive and returns it unchanged. A zero is a PlanGeneration error whose observed text is "field=0". |
| Policy.AbOnlyFieldsSet | src/policy.rs:199-208 | Each of root_a_size_mb, root_b_size_mb and state_size_mb is named exactly when it is set, and no other name appears. The names keep that declaration order, and the list is empty exactly when none is set. |
| Policy.AbOnlyFieldsExample | src/policy.rs:199-217 | A Mutable request setting root_a and state names exactly [root_a_size_mb, state_size_mb] and is refused with PlanGeneration. |
| Policy.ValidateRequestFields | src/policy.rs:186-222 | Passes exactly when the request sets only fields of its mode. Failures are PlanGeneration, and for Mutable the observed text lists exactly the set AB-only fields in order. |
| Policy.ResolveLayoutRequest | src/policy.rs:31-89 | The method that overwrites defaults field by field computes `Resolve`. |
| Policy.ResolveCharacterized | src/policy.rs:31-89 | Resolution succeeds exactly when the request is admissible: fields belong to the mode, every set size is positive, and the state and root floors hold. The result is then the defaults overridden by the set sizes, and every failure is PlanGeneration. |
| Policy.ResolveAb | src/policy.rs:35-67 | The AB half of the characterisation. |
| Policy.ResolveMutable | src/policy.rs:68-85 | The Mutable half of the characterisation. |
| Policy.ResolveWellFormed | src/policy.rs:38-88 | A resolved layout keeps the input mode and never carries the other mode's fields. |
| Policy.ExclusivityCheckedFirst | src/policy.rs:35 | A field that does not belong to the mode is reported before any size is looked at. |
| Policy.ZeroSizeRejected | src/policy.rs:39-41 | With valid fields, an EFI size of 0 fails with PlanGeneration and the observed text "efi_size_mb=0". |
| Policy.FloorsEnforced | src/policy.rs:53-82 | An AB state size below 4096 MB fails with PlanGeneration, and so does a Mutable root size below 8192 MB. |
| Policy.RequiredMinMb | src/policy.rs:91-104 | The minimum disk size, computed over unbounded integers, is at least the EFI size and below 4·2^32. |
| Policy.WrapAdd | src/policy.rs:97 | One `u32` addition: the true sum when it fits, otherwise the sum less 2^32. |
| Policy.RequiredMinMbWrapped | src/policy.rs:91-104 | The left-to-right wrapping `u32` additions give the unbounded minimum modulo 2^32. The two are equal exactly when the minimum fits in 32 bits, and the wrapped value is smaller otherwise. |
| Policy.BuildTemplates | src/policy.rs:106-167 | AB gets four templates and Mutable two. |
| Policy.TemplatesShape | src/policy.rs:106-167 | The partitions have indices 1..n in order. AB has the labels EFI, ROOT_A, ROOT_B, STATE and Mutable has EFI, ROOT. EFI is vfat, type "U", with a fixed size; the rest are ext4, type "L". |
| Policy.OnlyLastIsRemaining | src/policy.rs:106-167 | Only the last template may take the remaining space. |
| Policy.FixedSumBelowRequired | src/policy.rs:91-167 | The fixed sizes sum to at most the required minimum, and to strictly less when some partition takes the remaining space. |
| Plan.ValidatePartitionFit | src/plan.rs:81-113 | Passes exactly when the fixed sizes fit the disk, and fit strictly when a partition takes the remaining space. Failures are PlanGeneration. |
| Plan.FitFollowsFromCapacity | src/plan.rs:20-34 | Once the disk has the required minimum, the fit check cannot fail (the minimum of src/policy.rs:91-104). |
| Plan.BuildSfdiskScript | src/plan.rs:48-64 | The method that pushes one line per partition and a final newline computes `SfdiskScript`. |
| Plan.PartitionLines | src/plan.rs:53-59 | One script line per partition. |
| Plan.ScriptLines | src/plan.rs:48-64 | The script is "label: gpt" followed by exactly one line per partition, in order, and it ends with a newline. |
| Plan.ParseLineRoundTrip | src/plan.rs:53-57 | A partition line reads back as its size (`,<MB>M,` or `,,`), its type, and the boot mark `,*`, which is present exactly for index 1 of type "U". |
| Plan.ScriptRoundTrip | src/plan.rs:48-64 | Parsing the script gives back each partition's size, type and boot mark, in order. |
| Plan.TemplateTypesPlain | src/policy.rs:106-167 | The templates' GPT types contain no comma or newline, so the script can be read back. |
| Plan.BuildPlanWithLayoutRequest | src/plan.rs:14-46 | Resolution errors pass through unchanged. With the sum computed without overflow, the plan exists exactly when the disk's whole MB reach the required minimum. It then holds the templates of the resolved layout, their script, the request echoed and schema version 1. |
| Plan.BuildPlan | src/plan.rs:10-12 | With default sizes, a plan exists exactly when the disk has at least 46080 MB (AB) or 9216 MB (Mutable). |
| Plan.RemainingMeetsFloor | src/plan.rs:20-34 | In a built plan, the partition that takes the remaining space gets at least its floor: 4096 MB for the AB state, 8192 MB for the Mutable root (the minimum of src/policy.rs:91-104). |
| Plan.BuildPlanAsWritten | src/plan.rs:14-46 | The plan builder measured against the wrapped `u32` sum. Resolution errors pass through unchanged (the `u32` sum of src/policy.rs:97). |
| Plan.AsWrittenAgreesWithoutOverflow | src/policy.rs:91-104 | When the sum fits in 32 bits, the builder as written and the corrected builder agree. |
| Plan.WrappedMinimumAdmitsUndersizedState | src/policy.rs:97 | An AB request with `efi_size_mb` 4294967295 wraps the minimum to 45055 MB. The plan then passes on a disk that leaves 1 MB for the state partition, and the corrected builder rejects it (checked at src/plan.rs:20-34). |
| Plan.PartitionDevice | src/plan.rs:66-79 | The device name extends the disk path. |
| Plan.PartitionDeviceRoundTrip | src/plan.rs:66-79 | The partition number can be read back from the device name. A "p" separator appears exactly when the path ends in an ASCII digit. |
| Plan.PartitionDeviceInjective | src/plan.rs:66-79 | Different partition numbers give different device names on the same disk. |
| Plan.PartitionDeviceExamples | src/plan.rs:66-79 | sda→sda1, nvme0n1→nvme0n1p2, mmcblk0→mmcblk0p3, and an empty path gets no "p". |
| Exec.Rendered | src/exec.rs:487-498 | A command line is the program alone, or the program and its arguments joined by spaces. A directory creation is shown as "mkdir -p <path>". |
| Exec.PathJoin | src/exec.rs:191-263 | Joining a relative name adds a "/" unless the base already ends with one. |
| Exec.BuildApplyActions | src/exec.rs:130-268 | The method that appends the actions one by one computes `ApplyActions`. |
| Exec.FormattedDevices | src/exec.rs:270-275 | The device of every planned partition, in plan order. |
| Exec.EnsureConfirmation | src/exec.rs:116-128 | Passes exactly for the token `Some("DESTROY")`; anything else is MissingConfirmation. |
| Exec.ClassifyPhaseError | src/exec.rs:439-446 | partition → PartitionApplyFailed, format → FormatFailed, mount → MountFailed, and any other phase → Internal, each in both directions. |
| Exec.MissingDevices | src/exec.rs:451-455 | The devices that have not appeared: a device is listed exactly when it is expected and absent. |
| Exec.MissingDevicesInOrder | src/exec.rs:451-455 | The missing devices keep the order of the expected list: a concatenation's missing devices are each part's, in turn, and a single device is listed exactly when it is absent. |
| Exec.WaitForPartitionDevices | src/exec.rs:448-477 | Passes exactly when every device exists at the deadline. Otherwise it is PartitionApplyFailed whose observed text is "missing devices after 8s: " followed by the missing devices joined with ", ". |
| Exec.NonEmpty | src/exec.rs:417-434 | A captured output that is empty once trimmed becomes absent. |
| Exec.LaunchError | src/exec.rs:360-392 | The first failure among spawn, stdin write (only when there is stdin) and wait, classified by phase. A spawn failure gives "<program> starts successfully", then a stdin failure "<program> accepts stdin payload", then a wait failure "<program> exits cleanly", each with the failure's own message as the observed text. It is absent exactly when none failed. |
| Exec.StatusError | src/exec.rs:394-411 | A run fails exactly when its exit status is not 0, with the phase-classified code. |
| Exec.ReadinessError | src/exec.rs:413-415 | After a successful partition-phase program, the run fails exactly when some planned partition device has not appeared. |
| Exec.RunCreateDir | src/exec.rs:324-346 | Creating a directory succeeds exactly when `create_dir_all` does, giving the record "mkdir -p <path>" with status 0. A failure is MountFailed. |
| Exec.RunProgram | src/exec.rs:348-437 | Running a program fails with its phase's code, or gives the record of its status and trimmed non-empty output. |
| Exec.RunAction | src/exec.rs:318-437 | A record takes the action's phase, rendered command, program and arguments with `dry_run` false. A failure carries the code of the action's phase, or MountFailed for a directory creation. |
| Exec.Outcomes | src/exec.rs:91-98 | One outcome per action. |
| Exec.Reporter.constructor | src/exec.rs:39-43 | A new observer has seen nothing. |
| Exec.Reporter.Report | src/exec.rs:91-98 | The observer records each record it is shown, in order. |
| Exec.ExecutePlanWithReporter | src/exec.rs:35-114 | The run returns `Apply`, and the observer is shown exactly the `Reported` records, in order. |
| Exec.RunAll | src/exec.rs:91-98 | The loop gives the progression over all outcomes—records before the first error, then that error—and it shows the observer each record it keeps. |
| Exec.FailureStops | src/exec.rs:91-98 | After the first error, later outcomes change nothing. |
| Exec.ProgressionCharacterized | src/exec.rs:91-98 | The records kept are the successes before the first error, in order. The failure is exactly that first error. |
| Exec.ActionPhases | src/exec.rs:130-268 | The phases run partition, then format, then mount. AB has 3, 4 and 6 actions (13 in all) and Mutable has 3, 2 and 4 (9 in all). |
| Exec.PartitionPrograms | src/exec.rs:133-156 | The partition phase runs wipefs, sfdisk and udevadm on the plan's disk, and only sfdisk takes stdin, the plan's script. |
| Exec.MkdirBeforeMount | src/exec.rs:191-263 | Every mount comes immediately after the creation of its own target directory. |
| Exec.MountMapMatchesActions | src/exec.rs:191-316 | The mounts the actions perform are exactly the mount map, in order. |
| Exec.MountMapShape | src/exec.rs:277-316 | AB maps sysroot→p2, sysroot/boot→p1 and sysroot/state→p4. Mutable maps sysroot→p2 and sysroot/boot→p1. |
| Exec.MountsAppend | src/exec.rs:191-263 | The mounts of consecutive action lists are concatenated. |
| Exec.BuiltPlanConsistent | src/plan.rs:33-45 | A built plan lists the templates of its own layout, for its own mode. |
| Exec.FormatMatchesPlan | src/exec.rs:158-239 | The format actions correspond one to one, in order, with the planned partitions. Each formats that partition's device with `mkfs.<its filesystem>` and passes its label. |
| Exec.DryRunRecordsActions | src/exec.rs:44-88 | A dry run checks only the mount root. It succeeds exactly when that check passes, and it gives one record per action, in order, with the rendered command, no status or output, and `dry_run` true. Nothing is reported. |
| Exec.GatesInOrder | src/exec.rs:44-53 | The gates run in the order mount root, confirmation, root, tools, block device, writable, not mounted, and the first failure decides. A dry run has only the first. |
| Exec.GateFailureRunsNothing | src/exec.rs:44-53 | A failing gate returns its error before any action runs or is reported. |
| Exec.RealRunFailure | src/exec.rs:91-98 | A failed real run stopped at some action j: the earlier actions succeeded, their records were reported in order, and the error is action j's. |
| Exec.RealRunSuccess | src/exec.rs:91-114 | A successful real run has one record per action, in action order. Each record has status 0, the action's phase and rendered command, and `dry_run` false. The observer was shown exactly those records. |
| Exec.CreateDirsAreMounts | src/exec.rs:191-263 | Every directory creation is in the mount phase, so its failure is MountFailed (run at src/exec.rs:324-346). |
| Exec.ReadinessWaitFollowsWipefs | src/exec.rs:413-415 | Suppose `wipefs` succeeds but a planned device has not appeared. Then the run fails right there with the readiness error, before `sfdisk`, and nothing is reported. |
| Exec.PartitionSuccessWaits | src/exec.rs:394-415 | A partition-phase program with status 0 still fails when a planned device is missing afterwards. |
| Exec.ApplyResultShape | src/exec.rs:55-113 | A successful result carries the plan's partitions, the formatted devices, the mount map and the handoff for that map. It also has the requested `dry_run` flag, no warnings and schema version 1. |
| Exec.SysrootEndsWith | src/exec.rs:191-200 | Under an absolute mount root, the sysroot path ends in "/sysroot". |
| Exec.HandoffAtSysroot | src/exec.rs:55-113 | A successful apply hands off at the sysroot under the mount root (through src/handoff.rs:8-12). |
| Handoff.FirstSysroot | src/handoff.rs:8-12 | The position of the first mount ending in "/sysroot", with no earlier one ending so. |
| Handoff.InstallTargetCharacterized | src/handoff.rs:8-12 | The install target is the first mount path ending in "/sysroot" if there is one, and "/mnt/sysroot" only if there is none. |
| Handoff.BuildHandoff | src/handoff.rs:7-64 | The method that pushes the AB commands computes `HandoffFor`. |
| Handoff.HandoffCommands | src/handoff.rs:14-33 | The commands start with `recstrap T`, `recfstab T >> T/etc/fstab` and `recchroot T`. AB then has "recab status" and the set-next hint as commands four and five; Mutable has only the three. |
| Handoff.HandoffEchoes | src/handoff.rs:56-63 | The mount map is echoed unchanged, the mode is copied and the schema version is 1. |
| Handoff.HandoffSlotContext | src/handoff.rs:20-53 | AB targets slot A with hint B, and its slot devices are the ROOT_A and ROOT_B partitions of the plan. Mutable has no slot fields and a single note. |
| Preflight.IsReadOnly | src/preflight.rs:39-50 | A boolean gives its value and a number is read-only when non-zero. A text is read-only exactly when its trimmed lower-case form is "1", "true" or "yes". |
| Preflight.ReadOnlyTextTrimmed | src/preflight.rs:45-48 | Surrounding whitespace does not change the reading of a text. |
| Preflight.ReadOnlyTextDigits | src/preflight.rs:39-50 | The texts "1" and "0" read like the numbers 1 and 0. |
| Preflight.ReadOnlyTextDigit | src/preflight.rs:39-50 | A one-digit text means read-only exactly when the digit is 1. |
| Preflight.EnsureMountRootSafe | src/preflight.rs:134-156 | Passes exactly for an absolute, unprotected path. A non-absolute path fails first, as "not absolute", a protected one after; both are MountFailed. |
| Preflight.FirstMissing | src/preflight.rs:81-91 | The first tool not on `PATH`, with all earlier ones present. |
| Preflight.EnsureRequiredTools | src/preflight.rs:80-94 | The early-return loop over the tool list computes `RequiredToolsResult`. |
| Preflight.RequiredToolsCharacterized | src/preflight.rs:80-94 | Passes exactly when every required tool is present. Otherwise it is MissingTool naming the first absent tool in list order (the list at src/preflight.rs:52-61). |
| Preflight.EnsureRootForApply | src/preflight.rs:96-108 | Passes exactly for root; otherwise NotRoot. |
| Preflight.EnsureBlockDevice | src/preflight.rs:110-132 | Passes exactly when `stat` shows a block device; otherwise InvalidTargetDisk. |
| Preflight.LsblkStdout | src/preflight.rs:170-194 | An `lsblk` query gives its stdout exactly when it ran and succeeded. A failed status reports the trimmed stderr, and all failures are InvalidTargetDisk. |
| Preflight.EnsureWholeDisk | src/preflight.rs:170-207 | Passes exactly when the trimmed device type is "disk" or "loop". |
| Preflight.MountedPointsOf | src/preflight.rs:234-241 | The mountpoint lines with empty lines and "-" dropped. |
| Preflight.MountedPointsEmptyIff | src/preflight.rs:234-253 | No mountpoint remains exactly when every line is empty or "-". |
| Preflight.EnsureDiskNotMounted | src/preflight.rs:209-254 | Passes exactly when no mountpoint remains, and the failure lists them. |
| Preflight.EnsureDiskWritable | src/preflight.rs:256-293 | Passes exactly when the trimmed RO column is "0". |
| Preflight.GeometryField | src/preflight.rs:330-397 | A field is the first token parsed within its width. A missing token or a non-integer is InvalidTargetDisk. |
| Preflight.ParseGeometry | src/preflight.rs:330-404 | The first three whitespace tokens parse as `u64`, `u32` and `u32`, in that order, or the query fails. |
| Preflight.ParseGeometryRoundTrip | src/preflight.rs:330-404 | Printed size and sector sizes parse back to the same disk. |
| Preflight.QueryDiskTarget | src/preflight.rs:295-405 | Succeeds exactly when these all pass: canonicalisation, the block-device check, the whole-disk check, the geometry query, and the geometry parse of that query's stdout. The target is then that parse at the canonical path, and every failure is InvalidTargetDisk. |
| Preflight.ColumnOrUnknown | src/preflight.rs:478-491 | A missing or blank model or transport becomes "unknown"; otherwise the column is trimmed. |
| Preflight.RowEntry | src/preflight.rs:463-493 | A row contributes at most one entry, and only for a whole-disk type. |
| Preflight.SortByPath | src/preflight.rs:496 | A sorted permutation of the entries. |
| Preflight.DedupByPath | src/preflight.rs:497 | Never grows the list and keeps its first entry. |
| Preflight.DedupSorted | src/preflight.rs:497 | On a sorted list, de-duplication leaves each path exactly once, in strict order, and keeps only given entries. |
| Preflight.InventoryProperties | src/preflight.rs:496-497 | The inventory is strictly ordered by path and lists exactly the paths found, using only entries found. |
| Preflight.SortByPathStable | src/preflight.rs:496 | The sort is stable: the entries sharing a path come out in the order they were collected. |
| Preflight.DedupKeepsFirst | src/preflight.rs:497 | On a sorted list, the entry kept for each path is the first entry with that path. |
| Preflight.InventoryKeepsFirstCollected | src/preflight.rs:496-497 | When several entries share a path, the inventory keeps the one collected first. |
| Preflight.DiskInventoryList | src/preflight.rs:420-502 | Every failure of the listing is InvalidTargetDisk. |
| Preflight.ListDiskInventory | src/preflight.rs:420-502 | The listing method computes `DiskInventoryList`. |
| Preflight.CollectInventoryRows | src/preflight.rs:462-494 | The push loop with early return computes `CollectRows`. |
| Preflight.FailureExtends | src/preflight.rs:462-494 | A failure on a prefix of the rows is the failure of the whole list. |
| Tui.FirstAcceptedCharacterized | src/tui.rs:200-254 | The prompt loop's result is decided by the first line that is not rejected: a flush or read error, an accepted line, or end of input (read as an empty line). All its errors are Internal. |
| Tui.FirstAcceptedErrors | src/tui.rs:200-224 | A prompt fails only with Internal. |
| Tui.ParseSelectionInput | src/tui.rs:256-275 | Blank input gives the default. Otherwise a value is selected exactly when the trimmed input parses and lies in 1..max. A parse failure gives "Enter a number from the displayed list." and a value out of range gives the range message. |
| Tui.SelectionInRange | src/tui.rs:256-275 | With a default in range, any selection lies in 1..max. |
| Tui.SelectionOfPrinted | src/tui.rs:261-274 | A printed number in 1..max, padded with whitespace, selects that number. |
| Tui.SelectionOutOfRange | src/tui.rs:270-272 | 0 or a number above max is rejected with the range message. |
| Tui.RangeMessageNamesRange | src/tui.rs:271 | The range message mentions "between 1 and <max>". |
| Tui.NonNumericRejected | src/tui.rs:266-268 | Input with a character that is neither a digit nor "+" is rejected as not a number. |
| Tui.BlankSelectsDefault | src/tui.rs:328-331 | Blank input selects the default. |
| Tui.OutOfRangeExample | src/tui.rs:333-337 | "9" with max 3 is rejected, naming "between 1 and 3". |
| Tui.InRangeExample | src/tui.rs:339-342 | "3" with max 3 selects 3. |
| Tui.PromptSelection | src/tui.rs:226-236 | The re-prompting loop returns the first selection accepted, or the first I/O error. |
| Tui.PromptedSelectionInRange | src/tui.rs:226-236 | A prompted selection always lies in 1..max. |
| Tui.SelectDisk | src/tui.rs:22-45 | No disks is InvalidTargetDisk. Otherwise, for an accepted selection n, n lies in 1..|disks| and the chosen disk is disks[n-1]. End of input picks the first disk, and a prompt error is passed on as Internal. |
| Tui.SelectMode | src/tui.rs:47-55 | Selection 2 gives Mutable and everything else gives AB, the default. |
| Tui.MountRootFromInput | src/tui.rs:57-62 | Blank input gives "/mnt"; otherwise the trimmed input. |
| Tui.ClassifyAnswer | src/tui.rs:241-252 | After trimming and lower-casing: empty gives the default, "y"/"yes" gives yes, "n"/"no" gives no, and nothing else is accepted. |
| Tui.DefaultOnlyForEmpty | src/tui.rs:242-244 | The default matters only for an all-whitespace answer. |
| Tui.AnswerIgnoresCase | src/tui.rs:241 | Padding is ignored, and "Y", "YES", "No" and so on are read like lower case. |
| Tui.PromptYesNo | src/tui.rs:238-254 | The re-prompting loop returns the first accepted answer, or the first I/O error. |
| Tui.EndOfInputTakesDefault | src/tui.rs:238-244 | At end of input the default answer is taken. |
| Tui.ConfirmTyped | src/tui.rs:97-106 | Passes exactly when the trimmed token is "DESTROY". Otherwise it is MissingConfirmation and reports the token received. |
| Tui.ConfirmTypedPadded | src/tui.rs:97-106 | "DESTROY" with whitespace around it passes. |
| Tui.ConfirmTypedCaseSensitive | src/tui.rs:97-106 | "destroy" in lower case is refused. |
| Tui.ConfirmTypedRefusesOther | src/tui.rs:97-106 | Any entry without surrounding whitespace other than the token is refused. |
| Tui.TypedTokenPassesApplyGate | src/tui.rs:97-143 | After the wizard's check, the apply it starts passes the confirmation gate (the gate of src/exec.rs:116-128). |
| Tui.TotalSteps | src/tui.rs:108-123 | The step count is at least 1. It is the earlier dry run's step count, otherwise a fresh dry run's, and 1 if that fails or is empty. |
| Tui.TotalStepsCountsActions | src/tui.rs:108-123 | With a safe mount root, the count is the number of actions: 13 for AB, 9 for Mutable (the dry run of src/exec.rs:60-88). |
| Tui.ProgressWithinTotal | src/tui.rs:108-143 | A real run reports no more records than the step count shown. |
| Tui.ProgressLines | src/tui.rs:126-133 | The i-th reported record is shown as number i+1 of the total. |
| Tui.Progress.constructor | src/tui.rs:126 | The counter starts at 0 with nothing shown. |
| Tui.Progress.Report | src/tui.rs:127-133 | Each report increments the counter and shows "[completed/total] [phase] command". |
| Tui.EnforceTerminalMinimum | src/tui.rs:277-299 | Passes exactly when the size is unknown or at least 80 columns and 24 rows. Otherwise it is Internal and reports the detected size (minimums at src/tui.rs:11-12). |
| Tui.SmallTerminalRefused | src/tui.rs:277-299 | A 79x23 terminal is refused with exit code 12, and the remediation asks for 80 columns and 24 rows. |
| Tui.ParseU16 | src/tui.rs:302-303 | Exactly the strings that parse as `u16`. |
| Tui.SizeFromEnv | src/tui.rs:301-305 | Exactly when COLUMNS and LINES are set and their trimmed values parse as `u16`. |
| Tui.SizeFromStty | src/tui.rs:307-318 | Known only from a successful `stty size`, read as rows then columns. |
| Tui.ProbeTerminalSize | src/tui.rs:320-322 | The environment first, `stty` only when it gives nothing. |
| Tui.EnvSizeRoundTrip | src/tui.rs:301-305 | Printed columns and lines are read back unchanged. |
| Tui.SttySizeRoundTrip | src/tui.rs:307-318 | `stty size` output "rows cols" is read back with columns and rows in place. |

## Left out

- Process, filesystem, clock and terminal I/O are oracles, so these are not modelled:
  - spawning children;
  - piping stdin without deadlock;
  - `wait_with_output`;
  - `create_dir_all`;
  - `canonicalize`/`metadata`;
  - the `PATH` lookup;
  - `lsblk`, `stty`, the environment;
  - stdin and stdout.
- `Exec.WaitForPartitionDevices`: the 250 ms polling and the 8 s deadline are reduced to the device state at the deadline, as one oracle per action.
- UTF-8 lossy decoding of command output is not modelled. Outputs are given as strings.
- `is_protected_path` and `is_root` come from the `distro_spec` crate, which is not part of this model. They are uninterpreted oracles.
- The decoding of `lsblk -J` JSON (serde) is an oracle.
- `Exec.DebugToken`: the `{:?}` rendering of the received token does not model escaping of quotes or control characters inside the token.
- `Exec.PathJoin`: `Path::join` is string concatenation with "/". There is no normalisation of a trailing slash or a relative mount root, and an absolute joined name is not handled, since the source only joins fixed relative names.
- `Preflight.SortByPath`: `Path` ordering is component-wise. The model orders paths lexicographically by character. The two agree for the `/dev/<name>` paths `lsblk` reports, but not in general.
- `Preflight.DiskInventoryList`: its contract only states the error code. The ordering and de-duplication are stated by `Preflight.InventoryProperties` over `Inventory`.
- `list_candidate_disks` (a map of the inventory to disk targets) is not modelled. `Tui.SelectDisk` takes the candidate list as given.
- `human_size` uses `f64` and is left out. So are `print_plan_summary`, `print_dry_run_summary`, `print_handoff` and the wizard's other printed text.
- `Tui.PromptSelection`: the error message printed before re-prompting is not modelled. Only the re-prompt is.
- `run_tui` as a whole is not one member. Its decisions are modelled one by one:
  - `Tui.SelectDisk`;
  - `Tui.SelectMode`;
  - `Tui.MountRootFromInput`;
  - `Tui.PromptYesNo`;
  - `Tui.ConfirmTyped`;
  - `Tui.TotalSteps`;
  - `Tui.Progress`.
- `Tui.ProgressLines`: the link between the wizard's counter and the apply run's observer is stated on values, through `Tui.ProgressLines` over `Exec.Reported`. It is not stated as one object passed into `Exec.ExecutePlanWithReporter`.
- `usize` is taken to be 64 bits wide.
- The command-line parsing in src/cli.rs, the JSON output in src/json.rs and the wiring in src/main.rs and src/lib.rs are not part of this model. Neither is the frontend test, whose TypeScript source is not part of this model.

## Findings

| source | as written | input that shows it | evidently intended | confidence | as-written member | corrected member |
|---|---|---|---|---|---|---|
| src/policy.rs:97 | `required_min_mb` adds the `u32` sizes in `u32`. A build where addition wraps (release, no overflow checks) lowers the minimum disk size, so the capacity check at src/plan.rs:21-31 can pass a disk too small for the layout. | AB mode, `efi_size_mb` = 4294967295 and nothing else set. The sum wraps to 45055 MB, so a disk of 4295008256 MB passes. The state partition then gets 1 MB, below its 4096 MB floor. A debug build panics instead. | The minimum is the true sum, so the remaining partition always gets at least its floor. | not executed | Plan.WrappedMinimumAdmitsUndersizedState | Plan.RemainingMeetsFloor |
