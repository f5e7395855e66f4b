/** The value types shared by planning and execution, and the schema
    versions stamped on every exported record. */
module Types {

  datatype Option<+T> = None | Some(value: T) {
    function GetOr(default: T): T {
      match this
      case Some(v) => v
      case None => default
    }
  }

  // Fixed-width integers of the source, as ranges over `int`.
  type u8 = x: int | 0 <= x < 0x100
  type u32 = x: int | 0 <= x < 0x1_0000_0000
  type u64 = x: int | 0 <= x < 0x1_0000_0000_0000_0000
  type i32 = x: int | -0x8000_0000 <= x < 0x8000_0000

  const PlanSchemaVersion: nat := 1
  const ApplySchemaVersion: nat := 1
  const HandoffSchemaVersion: nat := 1
  const ErrorSchemaVersion: nat := 1

  /** The two install topologies; the default one is dual-slot. */
  datatype InstallMode = Ab | Mutable

  const DefaultInstallMode: InstallMode := Ab

  /** `Display` for `InstallMode`; serde's snake_case names are the same. */
  function ModeName(mode: InstallMode): (s: string)
    ensures s == "ab" || s == "mutable"
  {
    match mode
    case Ab => "ab"
    case Mutable => "mutable"
  }

  /** The mode a displayed name stands for. */
  function ModeFromName(s: string): (m: Option<InstallMode>)
    ensures m.Some? <==> (s == "ab" || s == "mutable")
  {
    if s == "ab" then Some(Ab) else if s == "mutable" then Some(Mutable) else None
  }

  /** Displaying a mode loses nothing: the two names are distinct. */
  lemma ModeNameRoundTrip(mode: InstallMode)
    ensures ModeFromName(ModeName(mode)) == Some(mode)
  {
  }

  datatype DiskTarget = DiskTarget(
    path: string,
    size_bytes: u64,
    logical_sector_bytes: u32,
    physical_sector_bytes: u32)

  datatype PartitionTemplate = PartitionTemplate(
    index: u8,
    name: string,
    filesystem: string,
    part_label: string,     // `label` in the source; `label` is a Dafny keyword
    gpt_type: string,
    size_mb: Option<u32>,   // None: the partition takes the remaining space
    mountpoint: string)

  /** The sparse size overrides a caller supplies, in MB. */
  datatype LayoutRequest = LayoutRequest(
    efi_size_mb: Option<u32>,
    root_size_mb: Option<u32>,
    root_a_size_mb: Option<u32>,
    root_b_size_mb: Option<u32>,
    state_size_mb: Option<u32>)

  /** `LayoutRequest::default()`: nothing requested. */
  const DefaultLayoutRequest: LayoutRequest := LayoutRequest(None, None, None, None, None)

  /** Sizes after defaults are applied; the EFI size is always known. */
  datatype ResolvedLayout = ResolvedLayout(
    mode: InstallMode,
    efi_size_mb: u32,
    root_size_mb: Option<u32>,
    root_a_size_mb: Option<u32>,
    root_b_size_mb: Option<u32>,
    state_size_mb: Option<u32>)

  datatype PartitionPlan = PartitionPlan(
    schema_version: nat,
    mode: InstallMode,
    layout_request: LayoutRequest,
    resolved_layout: ResolvedLayout,
    disk: DiskTarget,
    partitions: seq<PartitionTemplate>,
    sfdisk_script: string)

  datatype ApplyOptions = ApplyOptions(
    dry_run: bool,
    confirm_token: Option<string>,
    mount_root: string)

  datatype MountMapping = MountMapping(path: string, device: string)

  datatype ModeContext = ModeContext(
    install_target_slot: Option<string>,
    inactive_slot_hint: Option<string>,
    slot_a_device: Option<string>,
    slot_b_device: Option<string>,
    notes: seq<string>)

  datatype HandoffPayload = HandoffPayload(
    schema_version: nat,
    mode: InstallMode,
    install_target: string,
    mount_map: seq<MountMapping>,
    next_commands: seq<string>,
    mode_context: ModeContext)

  /** One audit entry of an apply run. */
  datatype CommandRecord = CommandRecord(
    phase: string,
    command: string,
    program: string,
    args: seq<string>,
    status: Option<i32>,
    stdout: Option<string>,
    stderr: Option<string>,
    dry_run: bool)

  datatype ApplyResult = ApplyResult(
    schema_version: nat,
    mode: InstallMode,
    layout_request: LayoutRequest,
    resolved_layout: ResolvedLayout,
    disk: DiskTarget,
    dry_run: bool,
    steps: seq<CommandRecord>,
    partition_map: seq<PartitionTemplate>,
    formatted_devices: seq<string>,
    mounted: seq<MountMapping>,
    handoff: HandoffPayload,
    warnings: seq<string>)

  datatype ErrorPayload = ErrorPayload(
    schema_version: nat,
    code: string,
    component: string,
    expectation: string,
    observed: string,
    remediation: string)
}
