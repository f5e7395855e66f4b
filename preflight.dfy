/** The safety checks run before a destructive apply, and the disk queries
    behind target selection. Every question put to the running system (the
    privilege check, the protected-path table, the PATH lookup, stat,
    canonicalisation, lsblk and its JSON decoding) is an oracle field of
    `System`; what is modelled is the decision taken on each answer. */
module Preflight {
  import opened Types
  import opened Strings
  import opened Errors

  /** An I/O call: its value, or the text of the operating-system error. */
  datatype Outcome<+T> = Done(value: T) | Failed(message: string)

  /** What a finished command returned. */
  datatype CommandOutput = CommandOutput(success: bool, stdout: string, stderr: string)

  /** The three shapes lsblk uses for its RO column. */
  datatype LsblkReadOnly = RoBool(flag: bool) | RoNum(num: u8) | RoText(text: string)

  /** One row of `lsblk -J`; every column may be absent. */
  datatype LsblkRow = LsblkRow(
    path: Option<string>,
    dev_type: Option<string>,
    model: Option<string>,
    tran: Option<string>,
    ro: Option<LsblkReadOnly>)

  datatype DiskInventory = DiskInventory(
    path: string,
    size_bytes: u64,
    logical_sector_bytes: u32,
    physical_sector_bytes: u32,
    model: string,
    transport: string,
    read_only: bool)

  /** The answers the running system gives. `stat` says whether the path is
      a block device; `lsblk` is keyed by its argument vector. */
  datatype System = System(
    isRoot: bool,
    isProtectedPath: string -> bool,
    toolInPath: string -> bool,
    canonicalize: string -> Outcome<string>,
    stat: string -> Outcome<bool>,
    lsblk: seq<string> -> Outcome<CommandOutput>,
    parseLsblkJson: string -> Outcome<seq<LsblkRow>>)

  function PreflightError<T>(code: ErrorCode, expectation: string, observed: string, remediation: string)
    : (r: Result<T>)
    ensures r.Err? && r.error.code == code && r.error.component == "preflight"
  {
    Fail(code, "preflight", expectation, observed, remediation)
  }

  function DiskError<T>(expectation: string, observed: string, remediation: string): (r: Result<T>)
    ensures r.Err? && r.error.code == InvalidTargetDisk
  {
    PreflightError(InvalidTargetDisk, expectation, observed, remediation)
  }

  // ------------------------------------------------------------ read-only

  /** `is_read_only`: a flag as given, a number when non-zero, a text when it
      reads 1, true or yes, ignoring surrounding whitespace and ASCII case. */
  function IsReadOnly(ro: LsblkReadOnly): (b: bool)
    ensures ro.RoBool? ==> b == ro.flag
    ensures ro.RoNum? ==> (b <==> ro.num != 0)
    ensures ro.RoText? ==> (b <==> ToAsciiLower(Trim(ro.text)) in {"1", "true", "yes"})
  {
    match ro
    case RoBool(flag) => flag
    case RoNum(num) => num != 0
    case RoText(text) =>
      var normalized := ToAsciiLower(Trim(text));
      normalized == "1" || normalized == "true" || normalized == "yes"
  }

  /** A text answer is read the same once trimmed: only its trimmed content
      decides. */
  lemma ReadOnlyTextTrimmed(text: string)
    ensures IsReadOnly(RoText(Trim(text))) == IsReadOnly(RoText(text))
  {
    TrimOfWhitespaceFree(Trim(text));
  }

  /** The text answers "1" and "0" agree with the numeric ones. */
  lemma ReadOnlyTextDigits()
    ensures IsReadOnly(RoText("1")) == IsReadOnly(RoNum(1)) == true
    ensures IsReadOnly(RoText("0")) == IsReadOnly(RoNum(0)) == false
  {
    ReadOnlyTextDigit('1');
    ReadOnlyTextDigit('0');
  }

  /** A one-digit text is read-only exactly when the digit is 1. */
  lemma ReadOnlyTextDigit(c: char)
    requires IsAsciiDigit(c)
    ensures IsReadOnly(RoText([c])) <==> c == '1'
  {
    var text := [c];
    assert !IsWhitespace(text[0]);
    TrimOfWhitespaceFree(text);
    var lowered := ToAsciiLower(text);
    assert lowered[0] == c;
    assert |lowered| == 1 && |"true"| == 4 && |"yes"| == 3;
    assert lowered == "1" <==> c == '1' by {
      if c == '1' { assert lowered == "1"; } else { assert lowered[0] != "1"[0]; }
    }
  }

  // -------------------------------------------------------------- mount root

  /** `Path::is_absolute` on Unix: the path starts at the root. */
  predicate IsAbsolute(path: string) {
    |path| > 0 && path[0] == '/'
  }

  /** `ensure_mount_root_safe`: an absolute path, then one that is not a
      protected system path. */
  function EnsureMountRootSafe(path: string, isProtectedPath: string -> bool): (r: Result<()>)
    ensures r.Ok? <==> IsAbsolute(path) && !isProtectedPath(path)
    ensures r.Err? ==> r.error.code == MountFailed
    ensures !IsAbsolute(path) ==> r.Err? && r.error.observed == "'" + path + "' is not absolute"
    ensures IsAbsolute(path) && isProtectedPath(path) ==> r.Err? && r.error.observed == "'" + path + "' is protected"
  {
    if !IsAbsolute(path) then
      PreflightError(MountFailed, "mount root path is absolute", "'" + path + "' is not absolute",
                     "Use an absolute mount root path such as /mnt.")
    else if isProtectedPath(path) then
      PreflightError(MountFailed, "mount root is not a protected system path", "'" + path + "' is protected",
                     "Use a non-protected path such as /mnt or /mnt/recpart.")
    else Ok(())
  }

  // ------------------------------------------------------------------- tools

  const RequiredTools: seq<string> := ["lsblk", "sfdisk", "wipefs", "mkfs.vfat", "mkfs.ext4", "mount", "udevadm", "blkid"]

  function MissingToolError<T>(tool: string): (r: Result<T>)
    ensures r.Err? && r.error.code == MissingTool && r.error.observed == "'" + tool + "' is missing"
  {
    PreflightError(MissingTool, "required tool '" + tool + "' exists in PATH", "'" + tool + "' is missing",
                   "Install '" + tool + "' and re-run recpart.")
  }

  /** The position of the first tool the lookup does not find, or the number
      of tools when all are found. */
  function FirstMissing(tools: seq<string>, toolInPath: string -> bool): (i: nat)
    ensures i <= |tools|
    ensures i < |tools| ==> !toolInPath(tools[i])
    ensures forall j :: 0 <= j < i ==> toolInPath(tools[j])
    decreases |tools|
  {
    if tools == [] then 0
    else if !toolInPath(tools[0]) then 0
    else 1 + FirstMissing(tools[1..], toolInPath)
  }

  /** The outcome of the tool check: the first missing tool, in list order. */
  function RequiredToolsResult(toolInPath: string -> bool): Result<()> {
    var i := FirstMissing(RequiredTools, toolInPath);
    if i < |RequiredTools| then MissingToolError(RequiredTools[i]) else Ok(())
  }

  /** `ensure_required_tools`: look each tool up in order and stop at the
      first that is missing. */
  method EnsureRequiredTools(toolInPath: string -> bool) returns (r: Result<()>)
    ensures r == RequiredToolsResult(toolInPath)
  {
    var k := 0;
    while k < |RequiredTools|
      invariant 0 <= k <= |RequiredTools|
      invariant forall j :: 0 <= j < k ==> toolInPath(RequiredTools[j])
    {
      var tool := RequiredTools[k];
      if !toolInPath(tool) {
        return MissingToolError(tool);
      }
      k := k + 1;
    }
    return Ok(());
  }

  /** The check passes exactly when every required tool is found; otherwise it
      names a missing tool every earlier one of which was found. */
  lemma RequiredToolsCharacterized(toolInPath: string -> bool)
    ensures RequiredToolsResult(toolInPath).Ok? <==> forall t :: t in RequiredTools ==> toolInPath(t)
    ensures RequiredToolsResult(toolInPath).Err? ==>
      exists i :: 0 <= i < |RequiredTools| && !toolInPath(RequiredTools[i])
        && (forall j :: 0 <= j < i ==> toolInPath(RequiredTools[j]))
        && RequiredToolsResult(toolInPath).error.observed == "'" + RequiredTools[i] + "' is missing"
  {
    var i := FirstMissing(RequiredTools, toolInPath);
    if i == |RequiredTools| {
      forall t | t in RequiredTools ensures toolInPath(t) {
        var j :| 0 <= j < |RequiredTools| && RequiredTools[j] == t;
      }
    }
  }

  // ----------------------------------------------------------- disk checks

  /** `ensure_root_for_apply`. */
  function EnsureRootForApply(isRoot: bool): (r: Result<()>)
    ensures r.Ok? <==> isRoot
    ensures r.Err? ==> r.error.code == NotRoot
  {
    if isRoot then Ok(())
    else PreflightError(NotRoot, "apply runs as root", "effective uid is not root", "Re-run with root privileges (sudo).")
  }

  /** `ensure_block_device`, on the answer of stat. */
  function EnsureBlockDevice(path: string, stat: Outcome<bool>): (r: Result<()>)
    ensures r.Ok? <==> stat == Done(true)
    ensures r.Err? ==> r.error.code == InvalidTargetDisk
  {
    match stat
    case Failed(msg) =>
      DiskError("target disk path exists and is a block device", "failed to stat '" + path + "': " + msg,
                "Provide a valid block device path (for example /dev/sda).")
    case Done(isBlock) =>
      if isBlock then Ok(())
      else DiskError("target disk path is a block device", "'" + path + "' is not a block device",
                     "Use lsblk to choose a disk path like /dev/sdX or /dev/nvme0n1.")
  }

  /** The two failures every lsblk query shares: it cannot be started, or it
      exits unsuccessfully (reported with its trimmed stderr). */
  function LsblkStdout(out: Outcome<CommandOutput>, spawnExpectation: string, statusExpectation: string,
                       remediation: string): (r: Result<string>)
    ensures r.Ok? <==> out.Done? && out.value.success
    ensures r.Ok? ==> r.value == out.value.stdout
    ensures r.Err? ==> r.error.code == InvalidTargetDisk
    ensures out.Done? && !out.value.success ==> r.Err? && r.error.observed == Trim(out.value.stderr)
  {
    match out
    case Failed(msg) =>
      DiskError(spawnExpectation, "failed to execute lsblk: " + msg,
                "Ensure util-linux is installed and lsblk is available.")
    case Done(output) =>
      if !output.success then DiskError(statusExpectation, Trim(output.stderr), remediation)
      else Ok(output.stdout)
  }

  function TypeArgs(path: string): seq<string> { ["-dn", "-o", "TYPE", path] }
  function MountpointArgs(path: string): seq<string> { ["-nr", "-o", "MOUNTPOINT", path] }
  function ReadOnlyArgs(path: string): seq<string> { ["-dn", "-o", "RO", path] }
  function GeometryArgs(path: string): seq<string> { ["-b", "-dn", "-o", "SIZE,LOG-SEC,PHY-SEC", path] }
  const InventoryArgs: seq<string> := ["-J", "-b", "-d", "-o", "PATH,TYPE,SIZE,LOG-SEC,PHY-SEC,MODEL,TRAN,RO"]

  predicate IsWholeDiskType(t: string) {
    t == "disk" || t == "loop"
  }

  /** `ensure_whole_disk`: the trimmed TYPE column is "disk" or "loop". */
  function EnsureWholeDisk(path: string, out: Outcome<CommandOutput>): (r: Result<()>)
    ensures r.Ok? <==> out.Done? && out.value.success && IsWholeDiskType(Trim(out.value.stdout))
    ensures r.Err? ==> r.error.code == InvalidTargetDisk
  {
    var stdout :- LsblkStdout(out, "lsblk can query target type", "target type query succeeds",
                              "Verify target disk path exists and is accessible.");
    var deviceType := Trim(stdout);
    if IsWholeDiskType(deviceType) then Ok(())
    else DiskError("target path resolves to whole-disk device type", "device type is '" + deviceType + "'",
                   "Target a disk device (for example /dev/sda), not a partition like /dev/sda1.")
  }

  /** A mountpoint line that names a mount: neither blank nor "-". */
  predicate NamesMount(line: string) {
    Trim(line) != "" && Trim(line) != "-"
  }

  /** The trimmed lines of lsblk's MOUNTPOINT column that name a mount. */
  function MountedPointsOf(lines: seq<string>): (ps: seq<string>)
    ensures |ps| <= |lines|
    ensures forall i :: 0 <= i < |ps| ==> ps[i] != "" && ps[i] != "-"
    decreases |lines|
  {
    if lines == [] then []
    else
      var rest := MountedPointsOf(lines[1..]);
      if NamesMount(lines[0]) then [Trim(lines[0])] + rest else rest
  }

  function MountedPoints(stdout: string): seq<string> {
    MountedPointsOf(Lines(stdout))
  }

  /** No mount is reported exactly when every line is blank or "-". */
  lemma {:induction false} MountedPointsEmptyIff(lines: seq<string>)
    ensures MountedPointsOf(lines) == [] <==> forall i :: 0 <= i < |lines| ==> !NamesMount(lines[i])
    decreases |lines|
  {
    if lines != [] {
      MountedPointsEmptyIff(lines[1..]);
      if !NamesMount(lines[0]) {
        forall i | 0 <= i < |lines| && i > 0 ensures lines[i] == lines[1..][i - 1] {
        }
      }
    }
  }

  /** `ensure_disk_not_mounted`. */
  function EnsureDiskNotMounted(path: string, out: Outcome<CommandOutput>): (r: Result<()>)
    ensures r.Ok? <==> out.Done? && out.value.success && MountedPoints(out.value.stdout) == []
    ensures r.Err? ==> r.error.code == InvalidTargetDisk
    ensures out.Done? && out.value.success && r.Err? ==>
      r.error.observed == "mounted points detected: " + Join(MountedPoints(out.value.stdout), ", ")
  {
    var stdout :- LsblkStdout(out, "lsblk can inspect mounted descendants", "mounted-state query succeeds",
                              "Verify target disk path exists and is accessible.");
    var points := MountedPoints(stdout);
    if points == [] then Ok(())
    else DiskError("target disk and child partitions are not mounted",
                   "mounted points detected: " + Join(points, ", "),
                   "Unmount all target disk partitions before destructive apply.")
  }

  /** `ensure_disk_writable`: the trimmed RO column reads "0". */
  function EnsureDiskWritable(path: string, out: Outcome<CommandOutput>): (r: Result<()>)
    ensures r.Ok? <==> out.Done? && out.value.success && Trim(out.value.stdout) == "0"
    ensures r.Err? ==> r.error.code == InvalidTargetDisk
  {
    var stdout :- LsblkStdout(out, "lsblk can query read-only status", "disk read-only status query succeeds",
                              "Verify target disk path exists and is accessible.");
    var ro := Trim(stdout);
    if ro == "0" then Ok(())
    else DiskError("target disk is writable (RO=0)", "read-only flag is RO=" + ro,
                   "Use a writable block device target and retry.")
  }

  // ---------------------------------------------------------------- geometry

  /** One geometry column: present, and a decimal integer below `bound`. */
  function GeometryField(stdout: string, tokens: seq<string>, column: string, bound: nat): (r: Result<nat>)
    ensures r.Ok? <==> |tokens| > 0 && ParseUnsigned(tokens[0], bound).Parsed?
    ensures r.Ok? ==> r.value == ParseUnsigned(tokens[0], bound).value && r.value < bound
    ensures r.Err? ==> r.error.code == InvalidTargetDisk
    ensures tokens == [] ==> r.Err? && r.error.observed == Trim(stdout)
  {
    if tokens == [] then
      DiskError("lsblk output contains " + column, Trim(stdout),
                "Inspect 'lsblk -b -dn -o SIZE,LOG-SEC,PHY-SEC <disk>' output.")
    else
      match ParseUnsigned(tokens[0], bound)
      case ParseFailed(kind) =>
        DiskError(column + " is parseable as integer", "invalid " + column + " value: " + IntErrorText(kind),
                  "Check lsblk output and locale settings.")
      case Parsed(v) => Ok(v)
  }

  /** The first three whitespace-separated tokens as the size in bytes (u64)
      and the logical and physical sector sizes (u32); further tokens are
      ignored. */
  function ParseGeometry(path: string, stdout: string): (r: Result<DiskTarget>)
    ensures r.Ok? ==> r.value.path == path
    ensures r.Err? ==> r.error.code == InvalidTargetDisk
    ensures r.Ok? <==>
      var ts := SplitWhitespace(stdout);
      |ts| >= 3 && ParseUnsigned(ts[0], 0x1_0000_0000_0000_0000).Parsed?
      && ParseUnsigned(ts[1], 0x1_0000_0000).Parsed? && ParseUnsigned(ts[2], 0x1_0000_0000).Parsed?
  {
    var ts := SplitWhitespace(stdout);
    var size :- GeometryField(stdout, ts, "SIZE", 0x1_0000_0000_0000_0000);
    var logical :- GeometryField(stdout, ts[1..], "LOG-SEC", 0x1_0000_0000);
    var physical :- GeometryField(stdout, ts[2..], "PHY-SEC", 0x1_0000_0000);
    Ok(DiskTarget(path, size, logical, physical))
  }

  /** lsblk's own rendering of a geometry reads back as that geometry. */
  lemma ParseGeometryRoundTrip(path: string, size: u64, logical: u32, physical: u32)
    ensures ParseGeometry(path, NatToString(size) + " " + NatToString(logical) + " " + NatToString(physical) + "\n")
      == Ok(DiskTarget(path, size, logical, physical))
  {
    var a, b, c := NatToString(size), NatToString(logical), NatToString(physical);
    forall w | w in [a, b, c] ensures w != [] && NoWhitespace(w) {
      assert AllDigits(w);
      forall i | 0 <= i < |w| ensures !IsWhitespace(w[i]) {
        assert IsAsciiDigit(w[i]);
      }
    }
    SplitThreeWords(a, b, c);
    ParseNatToString(size, 0x1_0000_0000_0000_0000);
    ParseNatToString(logical, 0x1_0000_0000);
    ParseNatToString(physical, 0x1_0000_0000);
  }

  /** `query_disk_target`: canonicalise, check that the result is a whole-disk
      block device, then read its geometry. */
  function QueryDiskTarget(path: string, sys: System): (r: Result<DiskTarget>)
    ensures r.Ok? ==> sys.canonicalize(path).Done? && r.value.path == sys.canonicalize(path).value
    ensures r.Ok? ==>
      var canonical := sys.canonicalize(path).value;
      EnsureBlockDevice(canonical, sys.stat(canonical)).Ok?
      && EnsureWholeDisk(canonical, sys.lsblk(TypeArgs(canonical))).Ok?
    ensures r.Ok? <==>
      sys.canonicalize(path).Done?
      && var canonical := sys.canonicalize(path).value;
      var geometry := sys.lsblk(GeometryArgs(canonical));
      EnsureBlockDevice(canonical, sys.stat(canonical)).Ok?
      && EnsureWholeDisk(canonical, sys.lsblk(TypeArgs(canonical))).Ok?
      && geometry.Done? && geometry.value.success
      && ParseGeometry(canonical, geometry.value.stdout).Ok?
    ensures r.Ok? ==>
      var canonical := sys.canonicalize(path).value;
      r == ParseGeometry(canonical, sys.lsblk(GeometryArgs(canonical)).value.stdout)
    ensures r.Err? ==> r.error.code == InvalidTargetDisk
  {
    var canonical :- match sys.canonicalize(path)
      case Failed(msg) =>
        DiskError("target disk path can be canonicalized", "failed to canonicalize '" + path + "': " + msg,
                  "Use a valid disk path (for example /dev/sda or /dev/nvme0n1).")
      case Done(p) => Ok(p);
    var _ :- EnsureBlockDevice(canonical, sys.stat(canonical));
    var _ :- EnsureWholeDisk(canonical, sys.lsblk(TypeArgs(canonical)));
    var stdout :- LsblkStdout(sys.lsblk(GeometryArgs(canonical)), "lsblk can query disk geometry",
                              "lsblk returns disk geometry", "Verify the disk path is valid and accessible.");
    ParseGeometry(canonical, stdout)
  }

  // --------------------------------------------------------------- inventory

  /** A trimmed column, or "unknown" when it is absent or blank. */
  function ColumnOrUnknown(value: Option<string>): (r: string)
    ensures r != ""
    ensures value.Some? && Trim(value.value) != "" ==> r == Trim(value.value)
    ensures (value.None? || Trim(value.value) == "") ==> r == "unknown"
  {
    if value.Some? && Trim(value.value) != "" then Trim(value.value) else "unknown"
  }

  /** The inventory entries one row contributes: none for a row without a
      path or type or of another type, otherwise the queried disk. */
  function RowEntry(row: LsblkRow, sys: System): (r: Result<seq<DiskInventory>>)
    ensures r.Ok? && r.value != [] ==> |r.value| == 1 && row.dev_type.Some? && IsWholeDiskType(row.dev_type.value)
    ensures r.Err? ==> r.error.code == InvalidTargetDisk
  {
    if row.path.None? || row.dev_type.None? || !IsWholeDiskType(row.dev_type.value) then Ok([])
    else
      var target :- QueryDiskTarget(row.path.value, sys);
      Ok([DiskInventory(target.path, target.size_bytes, target.logical_sector_bytes, target.physical_sector_bytes,
                        ColumnOrUnknown(row.model), ColumnOrUnknown(row.tran),
                        row.ro.Some? && IsReadOnly(row.ro.value))])
  }

  /** The entries of all rows in order, failing at the first row whose query
      fails. */
  function CollectRows(rows: seq<LsblkRow>, sys: System): (r: Result<seq<DiskInventory>>)
    ensures r.Err? ==> r.error.code == InvalidTargetDisk
    decreases |rows|
  {
    if rows == [] then Ok([])
    else
      var front :- CollectRows(rows[..|rows| - 1], sys);
      var entry :- RowEntry(rows[|rows| - 1], sys);
      Ok(front + entry)
  }

  predicate Sorted(ds: seq<DiskInventory>) {
    forall i :: 0 < i < |ds| ==> StrLe(ds[i - 1].path, ds[i].path)
  }

  predicate StrictlySorted(ds: seq<DiskInventory>) {
    forall i :: 0 < i < |ds| ==> StrLt(ds[i - 1].path, ds[i].path)
  }

  function Paths(ds: seq<DiskInventory>): set<string> {
    set i | 0 <= i < |ds| :: ds[i].path
  }

  /** Inserts after every entry whose path is not greater, which keeps the
      sort stable. */
  function InsertByPath(ds: seq<DiskInventory>, d: DiskInventory): (r: seq<DiskInventory>)
    requires Sorted(ds)
    ensures Sorted(r) && multiset(r) == multiset(ds) + multiset{d}
    ensures r != [] && (r[0] == d || (ds != [] && r[0] == ds[0]))
    decreases |ds|
  {
    if ds == [] then [d]
    else if StrLt(d.path, ds[0].path) then
      [d] + ds
    else
      StrLeTotal(d.path, ds[0].path);
      var rest := InsertByPath(ds[1..], d);
      assert ds == [ds[0]] + ds[1..];
      assert StrLe(ds[0].path, rest[0].path) by {
        if ds[1..] != [] && rest[0] == ds[1..][0] {
          assert ds[1..][0] == ds[1];
        }
      }
      [ds[0]] + rest
  }

  /** `sort_by` on the path. */
  function SortByPath(ds: seq<DiskInventory>): (r: seq<DiskInventory>)
    ensures Sorted(r) && multiset(r) == multiset(ds)
    decreases |ds|
  {
    if ds == [] then []
    else
      assert ds == ds[..|ds| - 1] + [ds[|ds| - 1]];
      InsertByPath(SortByPath(ds[..|ds| - 1]), ds[|ds| - 1])
  }

  /** `dedup_by` on the path: of a run of entries with one path, keeps the
      first. */
  function DedupByPath(ds: seq<DiskInventory>): (r: seq<DiskInventory>)
    ensures |r| <= |ds|
    ensures ds != [] ==> r != [] && r[0] == ds[0]
    decreases |ds|
  {
    if |ds| <= 1 then ds
    else if ds[0].path == ds[1].path then DedupByPath([ds[0]] + ds[2..])
    else [ds[0]] + DedupByPath(ds[1..])
  }

  lemma {:induction false} DedupSorted(ds: seq<DiskInventory>)
    requires Sorted(ds)
    ensures StrictlySorted(DedupByPath(ds))
    ensures Paths(DedupByPath(ds)) == Paths(ds)
    ensures forall d :: d in DedupByPath(ds) ==> d in ds
    decreases |ds|
  {
    if |ds| > 1 {
      if ds[0].path == ds[1].path {
        var t := [ds[0]] + ds[2..];
        SortedDropSecond(ds);
        DedupSorted(t);
        DedupDuplicateStep(ds, t);
      } else {
        var t := ds[1..];
        SortedTail(ds);
        DedupSorted(t);
        DedupDistinctStep(ds, t);
      }
    }
  }

  /** A repeated leading path is dropped without losing a path. */
  lemma DedupDuplicateStep(ds: seq<DiskInventory>, t: seq<DiskInventory>)
    requires |ds| > 1 && ds[0].path == ds[1].path && t == [ds[0]] + ds[2..]
    requires Paths(DedupByPath(t)) == Paths(t)
    requires forall d :: d in DedupByPath(t) ==> d in t
    ensures Paths(DedupByPath(ds)) == Paths(ds)
    ensures forall d :: d in DedupByPath(ds) ==> d in ds
  {
    assert Paths(t) == Paths(ds) by {
      forall p | p in Paths(ds) ensures p in Paths(t) {
        var i :| 0 <= i < |ds| && ds[i].path == p;
        if i == 0 || i == 1 { assert t[0].path == p; } else { assert t[i - 1] == ds[i]; }
      }
      forall p | p in Paths(t) ensures p in Paths(ds) {
        var i :| 0 <= i < |t| && t[i].path == p;
        if i == 0 { assert ds[0] == t[0]; } else { assert t[i] == ds[i + 1]; }
      }
    }
    forall d | d in t ensures d in ds {
      var i :| 0 <= i < |t| && t[i] == d;
      if i > 0 { assert t[i] == ds[i + 1]; }
    }
  }

  /** A distinct leading path is kept in front of the rest. */
  lemma DedupDistinctStep(ds: seq<DiskInventory>, t: seq<DiskInventory>)
    requires |ds| > 1 && ds[0].path != ds[1].path && t == ds[1..] && Sorted(ds)
    requires StrictlySorted(DedupByPath(t))
    requires Paths(DedupByPath(t)) == Paths(t)
    requires forall d :: d in DedupByPath(t) ==> d in t
    ensures StrictlySorted(DedupByPath(ds))
    ensures Paths(DedupByPath(ds)) == Paths(ds)
    ensures forall d :: d in DedupByPath(ds) ==> d in ds
  {
    var r := DedupByPath(ds);
    var rt := DedupByPath(t);
    assert r == [ds[0]] + rt;
    assert StrictlySorted(r) by {
      forall i | 0 < i < |r| ensures StrLt(r[i - 1].path, r[i].path) {
        if i == 1 { assert r[1] == rt[0] == ds[1]; } else { assert r[i - 1] == rt[i - 2]; }
      }
    }
    assert Paths(r) == Paths(ds) by {
      forall p | p in Paths(ds) ensures p in Paths(r) {
        var i :| 0 <= i < |ds| && ds[i].path == p;
        if i == 0 { assert r[0] == ds[0]; } else {
          assert t[i - 1].path == p;
          assert p in Paths(rt);
          var j :| 0 <= j < |rt| && rt[j].path == p;
          assert r[j + 1] == rt[j];
        }
      }
      forall p | p in Paths(r) ensures p in Paths(ds) {
        var i :| 0 <= i < |r| && r[i].path == p;
        if i == 0 { assert ds[0] == r[0]; } else {
          assert r[i] == rt[i - 1];
          assert p in Paths(rt);
          var j :| 0 <= j < |t| && t[j].path == p;
          assert ds[j + 1] == t[j];
        }
      }
    }
    forall d | d in r ensures d in ds {
      if d != ds[0] {
        assert d in rt;
      }
    }
  }

  /** The sorted, de-duplicated inventory of the collected entries. */
  function Inventory(ds: seq<DiskInventory>): seq<DiskInventory> {
    DedupByPath(SortByPath(ds))
  }

  /** The inventory is in increasing path order with no path twice, lists
      every path found, and contains only entries that were found. */
  lemma InventoryProperties(ds: seq<DiskInventory>)
    ensures StrictlySorted(Inventory(ds))
    ensures Paths(Inventory(ds)) == Paths(ds)
    ensures forall d :: d in Inventory(ds) ==> d in ds
  {
    var sorted := SortByPath(ds);
    DedupSorted(sorted);
    forall p | p in Paths(ds) ensures p in Paths(sorted) {
      var i :| 0 <= i < |ds| && ds[i].path == p;
      assert ds[i] in multiset(sorted);
    }
    forall p | p in Paths(sorted) ensures p in Paths(ds) {
      var i :| 0 <= i < |sorted| && sorted[i].path == p;
      assert sorted[i] in multiset(ds);
    }
    forall d | d in sorted ensures d in ds {
      assert d in multiset(sorted);
    }
  }

  /** The entries with path `p`, in their order in `ds`. */
  function WithPath(ds: seq<DiskInventory>, p: string): (r: seq<DiskInventory>)
    ensures |r| <= |ds|
    decreases |ds|
  {
    if ds == [] then [] else IfPath(ds[0], p) + WithPath(ds[1..], p)
  }

  /** The entry alone when it has path `p`, else nothing. */
  function IfPath(d: DiskInventory, p: string): seq<DiskInventory> {
    if d.path == p then [d] else []
  }

  lemma {:induction false} WithPathAppend(a: seq<DiskInventory>, b: seq<DiskInventory>, p: string)
    ensures WithPath(a + b, p) == WithPath(a, p) + WithPath(b, p)
    decreases |a|
  {
    if a == [] {
      assert a + b == b;
    } else {
      var c := a + b;
      assert c[0] == a[0] && c[1..] == a[1..] + b;
      WithPathAppend(a[1..], b, p);
      calc {
        WithPath(c, p);
        IfPath(a[0], p) + WithPath(a[1..] + b, p);
        IfPath(a[0], p) + (WithPath(a[1..], p) + WithPath(b, p));
        (IfPath(a[0], p) + WithPath(a[1..], p)) + WithPath(b, p);
      }
    }
  }

  /** No entry of a sorted list has a path below that of its head. */
  lemma {:induction false} NoneBelowHead(ds: seq<DiskInventory>, q: string)
    requires Sorted(ds) && ds != [] && StrLt(q, ds[0].path)
    ensures WithPath(ds, q) == []
    decreases |ds|
  {
    var t := ds[1..];
    if t != [] {
      assert t[0] == ds[1];
      StrLeTransitive(q, ds[0].path, t[0].path);
      if q == t[0].path {
        StrLeAntisymmetric(q, ds[0].path);
      }
      SortedTail(ds);
      NoneBelowHead(t, q);
    }
  }

  /** Insertion puts the new entry after every entry with the same path. */
  lemma {:induction false} InsertByPathStable(ds: seq<DiskInventory>, d: DiskInventory, p: string)
    requires Sorted(ds)
    ensures WithPath(InsertByPath(ds, d), p) == WithPath(ds, p) + WithPath([d], p)
    decreases |ds|
  {
    if ds == [] {
      assert InsertByPath(ds, d) == [d];
    } else if StrLt(d.path, ds[0].path) {
      InsertBeforeHeadStable(ds, d, p);
    } else {
      var t := ds[1..];
      SortedTail(ds);
      InsertByPathStable(t, d, p);
      InsertAfterHeadStable(ds, d, p);
    }
  }

  /** The case where the new entry goes in front. */
  lemma InsertBeforeHeadStable(ds: seq<DiskInventory>, d: DiskInventory, p: string)
    requires Sorted(ds) && ds != [] && StrLt(d.path, ds[0].path)
    ensures WithPath(InsertByPath(ds, d), p) == WithPath(ds, p) + WithPath([d], p)
  {
    assert InsertByPath(ds, d) == [d] + ds;
    WithPathAppend([d], ds, p);
    if d.path == p {
      NoneBelowHead(ds, p);
    }
  }

  lemma InsertAfterHead(ds: seq<DiskInventory>, d: DiskInventory)
    requires Sorted(ds) && ds != [] && !StrLt(d.path, ds[0].path)
    ensures Sorted(ds[1..]) && InsertByPath(ds, d) == [ds[0]] + InsertByPath(ds[1..], d)
  {
    SortedTail(ds);
  }

  /** The case where the head stays in front of the insertion into the tail. */
  lemma InsertAfterHeadStable(ds: seq<DiskInventory>, d: DiskInventory, p: string)
    requires Sorted(ds) && ds != [] && !StrLt(d.path, ds[0].path) && Sorted(ds[1..])
    requires WithPath(InsertByPath(ds[1..], d), p) == WithPath(ds[1..], p) + WithPath([d], p)
    ensures WithPath(InsertByPath(ds, d), p) == WithPath(ds, p) + WithPath([d], p)
  {
    var t := ds[1..];
    var rest := InsertByPath(t, d);
    var head := [ds[0]];
    InsertAfterHead(ds, d);
    assert head + t == ds;
    calc {
      WithPath(InsertByPath(ds, d), p);
      WithPath(head + rest, p);
      { WithPathAppend(head, rest, p); }
      WithPath(head, p) + WithPath(rest, p);
      WithPath(head, p) + (WithPath(t, p) + WithPath([d], p));
      { ConcatAssociative(WithPath(head, p), WithPath(t, p), WithPath([d], p)); }
      (WithPath(head, p) + WithPath(t, p)) + WithPath([d], p);
      { WithPathAppend(head, t, p); }
      WithPath(head + t, p) + WithPath([d], p);
    }
  }

  /** The sort is stable: the entries sharing a path keep their collection
      order. */
  lemma {:induction false} SortByPathStable(ds: seq<DiskInventory>, p: string)
    ensures WithPath(SortByPath(ds), p) == WithPath(ds, p)
    decreases |ds|
  {
    if ds != [] {
      var front := ds[..|ds| - 1];
      var last := ds[|ds| - 1];
      assert front + [last] == ds;
      calc {
        WithPath(SortByPath(ds), p);
        WithPath(InsertByPath(SortByPath(front), last), p);
        { InsertByPathStable(SortByPath(front), last, p); }
        WithPath(SortByPath(front), p) + WithPath([last], p);
        { SortByPathStable(front, p); }
        WithPath(front, p) + WithPath([last], p);
        { WithPathAppend(front, [last], p); }
        WithPath(front + [last], p);
      }
    }
  }

  /** On a sorted list, the entry de-duplication keeps for a path is the
      first entry with that path. */
  lemma {:induction false} DedupKeepsFirst(ds: seq<DiskInventory>)
    requires Sorted(ds)
    ensures forall d :: d in DedupByPath(ds) ==> WithPath(ds, d.path) != [] && d == WithPath(ds, d.path)[0]
    decreases |ds|
  {
    if |ds| <= 1 {
      if ds != [] {
        assert WithPath(ds, ds[0].path) == [ds[0]] + WithPath(ds[1..], ds[0].path);
      }
    } else if ds[0].path == ds[1].path {
      var t := [ds[0]] + ds[2..];
      SortedDropSecond(ds);
      DedupKeepsFirst(t);
      KeepsFirstDuplicateStep(ds, t);
    } else {
      var t := ds[1..];
      SortedTail(ds);
      DedupKeepsFirst(t);
      KeepsFirstDistinctStep(ds, t);
    }
  }

  /** Every entry de-duplication keeps is the first with its path. */
  predicate KeepsFirst(ds: seq<DiskInventory>) {
    forall d :: d in DedupByPath(ds) ==> WithPath(ds, d.path) != [] && d == WithPath(ds, d.path)[0]
  }

  lemma SortedTail(ds: seq<DiskInventory>)
    requires Sorted(ds) && ds != []
    ensures Sorted(ds[1..])
  {
    var t := ds[1..];
    forall i | 0 < i < |t| ensures StrLe(t[i - 1].path, t[i].path) {
      assert t[i - 1] == ds[i] && t[i] == ds[i + 1];
    }
  }

  lemma SortedDropSecond(ds: seq<DiskInventory>)
    requires Sorted(ds) && |ds| > 1 && ds[0].path == ds[1].path
    ensures Sorted([ds[0]] + ds[2..])
  {
    var t := [ds[0]] + ds[2..];
    forall i | 0 < i < |t| ensures StrLe(t[i - 1].path, t[i].path) {
      if i == 1 { assert t[0].path == ds[1].path && t[1] == ds[2]; } else { assert t[i - 1] == ds[i] && t[i] == ds[i + 1]; }
    }
  }

  /** Dropping the second of two entries with one path keeps the first entry
      of every path. */
  lemma KeepsFirstDuplicateStep(ds: seq<DiskInventory>, t: seq<DiskInventory>)
    requires |ds| > 1 && ds[0].path == ds[1].path && t == [ds[0]] + ds[2..]
    requires KeepsFirst(t)
    ensures KeepsFirst(ds)
  {
    assert DedupByPath(ds) == DedupByPath(t);
    forall q | WithPath(ds, q) != [] ensures WithPath(t, q) != [] && WithPath(ds, q)[0] == WithPath(t, q)[0] {
      assert ds == [ds[0]] + ([ds[1]] + ds[2..]);
      WithPathAppend([ds[0]], [ds[1]] + ds[2..], q);
      WithPathAppend([ds[1]], ds[2..], q);
      WithPathAppend([ds[0]], ds[2..], q);
      assert WithPath([ds[0]], q) == IfPath(ds[0], q) + WithPath([], q);
      assert WithPath([ds[1]], q) == IfPath(ds[1], q) + WithPath([], q);
    }
  }

  /** A distinct leading entry is the first of its path, and the paths after
      it do not occur in it. */
  lemma KeepsFirstDistinctStep(ds: seq<DiskInventory>, t: seq<DiskInventory>)
    requires Sorted(ds) && |ds| > 1 && ds[0].path != ds[1].path && t == ds[1..]
    requires KeepsFirst(t)
    ensures KeepsFirst(ds)
  {
    assert DedupByPath(ds) == [ds[0]] + DedupByPath(t);
    assert StrLt(ds[0].path, t[0].path) by { assert t[0] == ds[1]; }
    SortedTail(ds);
    NoneBelowHead(t, ds[0].path);
    forall d | d in DedupByPath(ds) ensures WithPath(ds, d.path) != [] && d == WithPath(ds, d.path)[0] {
      assert WithPath(ds, d.path) == IfPath(ds[0], d.path) + WithPath(t, d.path);
      if d != ds[0] {
        assert d in DedupByPath(t);
      }
    }
  }

  /** Of several entries found for one path, the inventory keeps the one
      collected first. */
  lemma InventoryKeepsFirstCollected(ds: seq<DiskInventory>)
    ensures forall d :: d in Inventory(ds) ==> WithPath(ds, d.path) != [] && d == WithPath(ds, d.path)[0]
  {
    DedupKeepsFirst(SortByPath(ds));
    forall d | d in Inventory(ds) ensures WithPath(ds, d.path) != [] && d == WithPath(ds, d.path)[0] {
      SortByPathStable(ds, d.path);
    }
  }

  /** The whole listing: enumerate, decode, collect, sort and de-duplicate. */
  function DiskInventoryList(sys: System): (r: Result<seq<DiskInventory>>)
    ensures r.Err? ==> r.error.code == InvalidTargetDisk
  {
    var stdout :- LsblkStdout(sys.lsblk(InventoryArgs), "lsblk can enumerate block devices",
                              "block device enumeration succeeds", "Verify the environment has a working lsblk.");
    var rows :- match sys.parseLsblkJson(stdout)
      case Failed(msg) =>
        DiskError("lsblk JSON output is parseable", "failed to parse lsblk JSON: " + msg,
                  "Inspect 'lsblk -J -b -d -o PATH,TYPE,SIZE,LOG-SEC,PHY-SEC,MODEL,TRAN,RO' output.")
      case Done(rs) => Ok(rs);
    var disks :- CollectRows(rows, sys);
    Ok(Inventory(disks))
  }

  /** `list_disk_inventory`: enumerate and decode, collect the rows' entries,
      then sort and de-duplicate. */
  method ListDiskInventory(sys: System) returns (r: Result<seq<DiskInventory>>)
    ensures r == DiskInventoryList(sys)
  {
    var out := LsblkStdout(sys.lsblk(InventoryArgs), "lsblk can enumerate block devices",
                           "block device enumeration succeeds", "Verify the environment has a working lsblk.");
    if out.Err? {
      return Err(out.error);
    }
    var parsed := sys.parseLsblkJson(out.value);
    if parsed.Failed? {
      return DiskError("lsblk JSON output is parseable", "failed to parse lsblk JSON: " + parsed.message,
                       "Inspect 'lsblk -J -b -d -o PATH,TYPE,SIZE,LOG-SEC,PHY-SEC,MODEL,TRAN,RO' output.");
    }
    var disks := CollectInventoryRows(parsed.value, sys);
    if disks.Err? {
      return Err(disks.error);
    }
    return Ok(Inventory(disks.value));
  }

  /** The row loop: push each row's entries in turn, returning at the first
      failed query. */
  method CollectInventoryRows(rows: seq<LsblkRow>, sys: System) returns (r: Result<seq<DiskInventory>>)
    ensures r == CollectRows(rows, sys)
  {
    var disks: seq<DiskInventory> := [];
    var i := 0;
    while i < |rows|
      invariant 0 <= i <= |rows|
      invariant CollectRows(rows[..i], sys) == Ok(disks)
    {
      var entry := RowEntry(rows[i], sys);
      CollectRowsStep(rows, i, disks, sys);
      if entry.Err? {
        FailureExtends(rows, i + 1, sys);
        return Err(entry.error);
      }
      disks := disks + entry.value;
      i := i + 1;
    }
    assert rows[..i] == rows;
    return Ok(disks);
  }

  /** Collecting one more row after a successful prefix. */
  lemma CollectRowsStep(rows: seq<LsblkRow>, i: nat, disks: seq<DiskInventory>, sys: System)
    requires i < |rows| && CollectRows(rows[..i], sys) == Ok(disks)
    ensures RowEntry(rows[i], sys).Err? ==> CollectRows(rows[..i + 1], sys) == Err(RowEntry(rows[i], sys).error)
    ensures RowEntry(rows[i], sys).Ok? ==> CollectRows(rows[..i + 1], sys) == Ok(disks + RowEntry(rows[i], sys).value)
  {
    var p := rows[..i + 1];
    assert p[..|p| - 1] == rows[..i] && p[|p| - 1] == rows[i];
  }

  /** Once a prefix of the rows fails, the whole list fails the same way. */
  lemma {:induction false} FailureExtends(rows: seq<LsblkRow>, k: nat, sys: System)
    requires k <= |rows| && CollectRows(rows[..k], sys).Err?
    ensures CollectRows(rows, sys) == CollectRows(rows[..k], sys)
    decreases |rows| - k
  {
    if k < |rows| {
      var p := rows[..k + 1];
      assert p[..|p| - 1] == rows[..k];
      FailedPrefixStep(p, sys);
      FailureExtends(rows, k + 1, sys);
    } else {
      assert rows[..k] == rows;
    }
  }

  /** One more row after a failed prefix changes nothing. */
  lemma FailedPrefixStep(rows: seq<LsblkRow>, sys: System)
    requires rows != [] && CollectRows(rows[..|rows| - 1], sys).Err?
    ensures CollectRows(rows, sys) == CollectRows(rows[..|rows| - 1], sys)
  {
  }
}
