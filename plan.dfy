/** The plan builder: checks that a disk is large enough for a resolved
    layout, lays out the partitions, renders the sfdisk script and names the
    partition devices. */
module Plan {
  import opened Types
  import opened Strings
  import opened Errors
  import opened Policy

  /** Bytes per megabyte. */
  const Mb: nat := 1024 * 1024

  /** The disk size in whole megabytes, rounded down. */
  function DiskMb(disk: DiskTarget): nat {
    disk.size_bytes / Mb
  }

  function PlanError<T>(expectation: string, observed: string, remediation: string): (r: Result<T>)
    ensures r.Err? && r.error.code == PlanGeneration && r.error.component == "plan"
  {
    Fail(PlanGeneration, "plan", expectation, observed, remediation)
  }

  // ---------------------------------------------------------------- fit check

  /** The fixed sizes must fit on the disk, and must leave at least one MB when
      a partition takes the remaining space. */
  function ValidatePartitionFit(parts: seq<PartitionTemplate>, diskMb: nat, mode: InstallMode): (r: Result<()>)
    ensures r.Ok? <==> FixedSum(parts) <= diskMb && (HasRemaining(parts) ==> FixedSum(parts) < diskMb)
    ensures r.Err? ==> r.error.code == PlanGeneration
  {
    var fixed := FixedSum(parts);
    if fixed > diskMb then
      PlanError("sum of fixed partition sizes does not exceed disk size",
                "fixed partition sum is " + NatToString(fixed) + "MB, disk is " + NatToString(diskMb) + "MB",
                "Reduce fixed partition sizes or select a larger disk.")
    else if HasRemaining(parts) && fixed >= diskMb then
      PlanError("at least one MB remains for remaining-size partition",
                "no free space left for remaining partition in mode " + ModeName(mode),
                "Reduce fixed partition sizes or set explicit sizes for all partitions.")
    else Ok(())
  }

  /** Once the capacity check has passed, the fit check cannot fail. */
  lemma FitFollowsFromCapacity(layout: ResolvedLayout, diskMb: nat)
    requires diskMb >= RequiredMinMb(layout)
    ensures ValidatePartitionFit(BuildTemplates(layout), diskMb, layout.mode).Ok?
  {
    FixedSumBelowRequired(layout);
  }

  // ------------------------------------------------------------ sfdisk script

  /** One partition's line: `,<MB>M,<TYPE>`, with `,*` (bootable) for a
      first "U" partition, or `,,<TYPE>` for one that takes the remaining
      space. */
  function PartitionLine(p: PartitionTemplate): string {
    match p.size_mb
    case Some(size) =>
      "," + NatToString(size) + "M," + p.gpt_type + (if p.index == 1 && p.gpt_type == "U" then ",*" else "")
    case None => ",," + p.gpt_type
  }

  const ScriptHeader: string := "label: gpt"

  function PartitionLines(parts: seq<PartitionTemplate>): (ls: seq<string>)
    ensures |ls| == |parts|
  {
    seq(|parts|, i requires 0 <= i < |parts| => PartitionLine(parts[i]))
  }

  /** The script the builder renders: the header and one line per partition,
      joined by newlines, with a final newline. */
  function SfdiskScript(parts: seq<PartitionTemplate>): string {
    Join([ScriptHeader] + PartitionLines(parts), "\n") + "\n"
  }

  /** `build_sfdisk_script`: push the header, then one line per partition,
      then join and add the final newline. */
  method BuildSfdiskScript(parts: seq<PartitionTemplate>) returns (script: string)
    ensures script == SfdiskScript(parts)
  {
    var lines := [ScriptHeader];
    var i := 0;
    while i < |parts|
      invariant 0 <= i <= |parts|
      invariant lines == [ScriptHeader] + PartitionLines(parts[..i])
    {
      assert PartitionLines(parts[..i + 1]) == PartitionLines(parts[..i]) + [PartitionLine(parts[i])];
      lines := lines + [PartitionLine(parts[i])];
      i := i + 1;
    }
    assert parts[..i] == parts;
    script := Join(lines, "\n");
    script := script + "\n";
  }

  /** A GPT type that keeps a line a single line and leaves its fields
      separable. */
  predicate PlainType(t: string) {
    Excludes(t, '\n') && Excludes(t, '\r') && Excludes(t, ',')
  }

  predicate PlainTypes(parts: seq<PartitionTemplate>) {
    forall i :: 0 <= i < |parts| ==> PlainType(parts[i].gpt_type)
  }

  lemma PartitionLinePlain(p: PartitionTemplate)
    requires PlainType(p.gpt_type)
    ensures PlainLine(PartitionLine(p))
  {
    var line := PartitionLine(p);
    if p.size_mb.Some? {
      var digits := NatToString(p.size_mb.value);
      var boot := if p.index == 1 && p.gpt_type == "U" then ",*" else "";
      assert line == "," + digits + "M," + p.gpt_type + boot;
      forall i | 0 <= i < |line|
        ensures line[i] != '\n'
      {
        if 1 <= i < 1 + |digits| {
          assert line[i] == digits[i - 1];
        }
      }
    }
  }

  /** The script is the header and then exactly one line per partition, in
      order, and it ends with a newline. */
  lemma ScriptLines(parts: seq<PartitionTemplate>)
    requires PlainTypes(parts)
    ensures Lines(SfdiskScript(parts)) == [ScriptHeader] + PartitionLines(parts)
    ensures EndsWith(SfdiskScript(parts), "\n")
  {
    var ls := [ScriptHeader] + PartitionLines(parts);
    forall i | 0 <= i < |ls|
      ensures PlainLine(ls[i])
    {
      if i > 0 {
        PartitionLinePlain(parts[i - 1]);
      }
    }
    JoinThenNewline(ls);
    LinesOfTerminated(ls);
  }

  /** What one script line says about its partition. */
  datatype LineSpec = LineSpec(size_mb: Option<nat>, gpt_type: string, bootable: bool)

  /** Reads a partition line back. */
  function ParseLine(line: string): Option<LineSpec> {
    if |line| < 2 || line[0] != ',' then None
    else if line[1] == ',' then Some(LineSpec(None, line[2..], false))
    else
      var rest := line[1..];
      var m := IndexOf(rest, 'M');
      if m == 0 || m + 1 >= |rest| || rest[m + 1] != ',' || !AllDigits(rest[..m]) then None
      else
        var tail := rest[m + 2..];
        var boot := EndsWith(tail, ",*");
        Some(LineSpec(Some(DecimalValue(rest[..m])), if boot then tail[..|tail| - 2] else tail, boot))
  }

  /** The fields of a sized line: the size before "M," and the rest. */
  lemma SizedLineFields(size: nat, tail: string)
    ensures ParseLine("," + NatToString(size) + "M," + tail) ==
      var boot := EndsWith(tail, ",*");
      Some(LineSpec(Some(size), if boot then tail[..|tail| - 2] else tail, boot))
  {
    var digits := NatToString(size);
    var line := "," + digits + "M," + tail;
    var rest := line[1..];
    assert rest == digits + ("M," + tail);
    assert Excludes(digits, 'M') by {
      forall i | 0 <= i < |digits| ensures digits[i] != 'M' {
        assert IsAsciiDigit(digits[i]);
      }
    }
    IndexOfAfter(digits, "M," + tail, 'M');
    var m := |digits|;
    assert rest[..m] == digits;
    assert rest[m + 2..] == tail;
    DecimalValueOfNatToString(size);
  }

  /** The bootable mark is recognised exactly when it was written, provided
      the type has no comma. */
  lemma BootMark(t: string, bootable: bool)
    requires Excludes(t, ',')
    ensures var tail := t + (if bootable then ",*" else "");
      EndsWith(tail, ",*") == bootable && (bootable ==> tail[..|tail| - 2] == t)
  {
    var tail := t + (if bootable then ",*" else "");
    if bootable {
      assert tail[..|tail| - 2] == t;
      assert tail[|tail| - 2..] == ",*";
    } else {
      assert tail == t;
      if |t| >= 2 {
        assert t[|t| - 2..][0] == t[|t| - 2];
      }
    }
  }

  /** A sized line reads back as its size, type and bootable flag. */
  lemma ParseSizedLine(size: nat, t: string, bootable: bool)
    requires PlainType(t)
    ensures ParseLine("," + NatToString(size) + "M," + t + (if bootable then ",*" else "")) ==
      Some(LineSpec(Some(size), t, bootable))
  {
    var pre := "," + NatToString(size) + "M,";
    var mark := if bootable then ",*" else "";
    var tail := t + mark;
    ConcatAssociative(pre, t, mark);
    SizedLineFields(size, tail);
    BootMark(t, bootable);
    if !bootable {
      assert tail == t;
    }
  }

  /** The line records what was meant: a sized partition gives its size and
      type and is bootable exactly when it is the first partition and of type
      "U"; an unsized one gives no size and is never bootable. */
  lemma ParseLineRoundTrip(p: PartitionTemplate)
    requires PlainType(p.gpt_type)
    ensures ParseLine(PartitionLine(p)) ==
      Some(LineSpec(if p.size_mb.Some? then Some(p.size_mb.value as nat) else None, p.gpt_type,
                    p.size_mb.Some? && p.index == 1 && p.gpt_type == "U"))
  {
    if p.size_mb.None? {
      assert PartitionLine(p)[2..] == p.gpt_type;
    } else {
      ParseSizedLine(p.size_mb.value, p.gpt_type, p.index == 1 && p.gpt_type == "U");
    }
  }

  /** Reads a whole script back: the header line and then one partition per
      line. */
  function ParseScript(script: string): Option<seq<LineSpec>> {
    var ls := Lines(script);
    if |ls| == 0 || ls[0] != ScriptHeader then None else ParseLines(ls[1..])
  }

  function ParseLines(ls: seq<string>): (r: Option<seq<LineSpec>>)
    ensures r.Some? ==> |r.value| == |ls|
    decreases |ls|
  {
    if ls == [] then Some([])
    else
      match ParseLine(ls[0])
      case None => None
      case Some(spec) =>
        match ParseLines(ls[1..])
        case None => None
        case Some(more) => Some([spec] + more)
  }

  function Spec(p: PartitionTemplate): LineSpec {
    LineSpec(if p.size_mb.Some? then Some(p.size_mb.value as nat) else None, p.gpt_type,
             p.size_mb.Some? && p.index == 1 && p.gpt_type == "U")
  }

  function Specs(parts: seq<PartitionTemplate>): (r: seq<LineSpec>)
    ensures |r| == |parts|
  {
    seq(|parts|, i requires 0 <= i < |parts| => Spec(parts[i]))
  }

  lemma {:induction false} ParseLinesOfPartitions(parts: seq<PartitionTemplate>)
    requires PlainTypes(parts)
    ensures ParseLines(PartitionLines(parts)) == Some(Specs(parts))
    decreases |parts|
  {
    if parts != [] {
      ParseLineRoundTrip(parts[0]);
      assert PartitionLines(parts)[1..] == PartitionLines(parts[1..]);
      ParseLinesOfPartitions(parts[1..]);
      assert Specs(parts) == [Spec(parts[0])] + Specs(parts[1..]);
    }
  }

  /** The script loses nothing: reading it back gives every partition's size,
      type and bootable flag, in order. */
  lemma ScriptRoundTrip(parts: seq<PartitionTemplate>)
    requires PlainTypes(parts)
    ensures ParseScript(SfdiskScript(parts)) == Some(Specs(parts))
  {
    ScriptLines(parts);
    assert ([ScriptHeader] + PartitionLines(parts))[1..] == PartitionLines(parts);
    ParseLinesOfPartitions(parts);
  }

  /** The templates of both modes use the plain types "U" and "L". */
  lemma TemplateTypesPlain(layout: ResolvedLayout)
    ensures PlainTypes(BuildTemplates(layout))
  {
    TemplatesShape(layout);
  }

  // ---------------------------------------------------------------- the plan

  /** The plan once the layout is resolved, measured against a given minimum
      size in MB. */
  function PlanFor(disk: DiskTarget, mode: InstallMode, request: LayoutRequest, resolved: ResolvedLayout,
                   minRequired: nat): (r: Result<PartitionPlan>)
    ensures r.Err? ==> r.error.code == PlanGeneration
  {
    var diskMb := DiskMb(disk);
    if diskMb < minRequired then
      PlanError("disk must have at least " + NatToString(minRequired) + "MB for mode " + ModeName(mode),
                "disk has " + NatToString(diskMb) + "MB",
                "Choose a larger disk or adjust partition policy defaults.")
    else
      var parts := BuildTemplates(resolved);
      var _ :- ValidatePartitionFit(parts, diskMb, mode);
      Ok(PartitionPlan(PlanSchemaVersion, mode, request, resolved, disk, parts, SfdiskScript(parts)))
  }

  /** `build_plan_with_layout_request`, with the required minimum computed
      without overflow. */
  function BuildPlanWithLayoutRequest(disk: DiskTarget, mode: InstallMode, request: LayoutRequest)
    : (r: Result<PartitionPlan>)
    ensures Resolve(mode, request).Err? ==> r == Err(Resolve(mode, request).error)
    ensures r.Ok? <==> Resolve(mode, request).Ok? && DiskMb(disk) >= RequiredMinMb(Resolve(mode, request).value)
    ensures r.Ok? ==>
      var resolved := Resolve(mode, request).value;
      r.value == PartitionPlan(PlanSchemaVersion, mode, request, resolved, disk, BuildTemplates(resolved),
                               SfdiskScript(BuildTemplates(resolved)))
    ensures r.Err? ==> r.error.code == PlanGeneration
  {
    var resolved :- Resolve(mode, request);
    FixedSumBelowRequired(resolved);
    ResolveWellFormed(mode, request);
    PlanFor(disk, mode, request, resolved, RequiredMinMb(resolved))
  }

  /** `build_plan`: the plan for the policy defaults of a mode. AB needs
      46080 MB and Mutable 9216 MB. */
  function BuildPlan(disk: DiskTarget, mode: InstallMode): (r: Result<PartitionPlan>)
    ensures r.Ok? <==> DiskMb(disk) >= (if mode == Ab then 46080 else 9216)
    ensures r.Ok? ==> (r.value.partitions == BuildTemplates(PolicyDefaults(mode))
                       && r.value.layout_request == DefaultLayoutRequest)
    ensures r.Err? ==> r.error.code == PlanGeneration
  {
    ResolveCharacterized(mode, DefaultLayoutRequest);
    BuildPlanWithLayoutRequest(disk, mode, DefaultLayoutRequest)
  }

  /** A partition that takes the remaining space gets at least its mode's
      floor: 4096 MB for the AB state partition, 8192 MB for the Mutable
      root. */
  lemma RemainingMeetsFloor(disk: DiskTarget, mode: InstallMode, request: LayoutRequest)
    requires BuildPlanWithLayoutRequest(disk, mode, request).Ok?
    ensures var plan := BuildPlanWithLayoutRequest(disk, mode, request).value;
      var parts := plan.partitions;
      parts[|parts| - 1].size_mb.None? ==>
        DiskMb(disk) - FixedSum(parts) >= (if mode == Ab then DefaultAbMinStateMb else DefaultMutableMinRootMb)
  {
    var resolved := Resolve(mode, request).value;
    ResolveWellFormed(mode, request);
    var parts := BuildTemplates(resolved);
    var n := |parts|;
    assert FixedSum(parts[n..]) == 0 by { assert parts[n..] == []; }
    assert FixedSum(parts[n - 1..]) == parts[n - 1].size_mb.GetOr(0) by { assert parts[n - 1..][1..] == parts[n..]; }
    assert FixedSum(parts[1..]) == parts[1].size_mb.GetOr(0) + FixedSum(parts[2..]) by { assert parts[1..][1..] == parts[2..]; }
    if mode == Ab {
      assert FixedSum(parts[2..]) == parts[2].size_mb.GetOr(0) + FixedSum(parts[3..]) by { assert parts[2..][1..] == parts[3..]; }
    }
  }

  // ------------------------------------------------ the u32 sum as written

  /** The plan as the source computes it in a build where `u32` addition
      wraps: the capacity check compares against the wrapped sum. */
  function BuildPlanAsWritten(disk: DiskTarget, mode: InstallMode, request: LayoutRequest)
    : (r: Result<PartitionPlan>)
    ensures Resolve(mode, request).Err? ==> r == Err(Resolve(mode, request).error)
  {
    var resolved :- Resolve(mode, request);
    PlanFor(disk, mode, request, resolved, RequiredMinMbWrapped(resolved))
  }

  /** Where the sum fits in 32 bits the two agree. */
  lemma AsWrittenAgreesWithoutOverflow(disk: DiskTarget, mode: InstallMode, request: LayoutRequest)
    requires Resolve(mode, request).Ok? && RequiredMinMb(Resolve(mode, request).value) < 0x1_0000_0000
    ensures BuildPlanAsWritten(disk, mode, request) == BuildPlanWithLayoutRequest(disk, mode, request)
  {
    var resolved := Resolve(mode, request).value;
    assert RequiredMinMbWrapped(resolved) == RequiredMinMb(resolved);
  }

  /** A request with the largest EFI size and AB defaults otherwise. */
  const OverflowRequest: LayoutRequest := LayoutRequest(Some(0xFFFF_FFFF), None, None, None, None)

  /** A disk one megabyte larger than the fixed partitions of that request. */
  const OverflowDisk: DiskTarget := DiskTarget("/dev/sda", 4_295_008_256 * 1_048_576, 512, 4096)

  /** With wrap-around the sum shrinks to 45055 MB, the capacity check passes
      and the plan leaves a single megabyte for the state partition, below its
      4096 MB floor; the unbounded sum rejects the same disk. */
  lemma WrappedMinimumAdmitsUndersizedState()
    ensures RequiredMinMbWrapped(Resolve(Ab, OverflowRequest).value) == 45055
    ensures BuildPlanAsWritten(OverflowDisk, Ab, OverflowRequest).Ok?
    ensures var parts := BuildPlanAsWritten(OverflowDisk, Ab, OverflowRequest).value.partitions;
      parts[3].size_mb.None? && DiskMb(OverflowDisk) - FixedSum(parts) == 1
    ensures BuildPlanWithLayoutRequest(OverflowDisk, Ab, OverflowRequest).Err?
  {
    ResolveCharacterized(Ab, OverflowRequest);
    var resolved := Resolve(Ab, OverflowRequest).value;
    assert DiskMb(OverflowDisk) == 4_295_008_256;
    var parts := BuildTemplates(resolved);
    assert FixedSum(parts[4..]) == 0 by { assert parts[4..] == []; }
    assert FixedSum(parts[3..]) == 0 by { assert parts[3..][1..] == parts[4..]; }
    assert FixedSum(parts[2..]) == 20480 by { assert parts[2..][1..] == parts[3..]; }
    assert FixedSum(parts[1..]) == 40960 by { assert parts[1..][1..] == parts[2..]; }
  }

  // ------------------------------------------------------- partition devices

  /** Whether a partition number needs a "p" separator: when the disk path
      ends with an ASCII digit, as in nvme0n1 or mmcblk0. */
  predicate NeedsSeparator(disk: string) {
    |disk| > 0 && IsAsciiDigit(disk[|disk| - 1])
  }

  /** `partition_device`: the disk path, "p" when it ends in a digit, then the
      partition index. */
  function PartitionDevice(disk: string, index: u8): (dev: string)
    ensures |disk| < |dev| && dev[..|disk|] == disk
  {
    disk + (if NeedsSeparator(disk) then "p" else "") + NatToString(index)
  }

  /** The partition index a device name under `disk` stands for. */
  function PartitionIndexOf(disk: string, dev: string): Option<nat> {
    if |dev| <= |disk| || dev[..|disk|] != disk then None
    else
      var rest := dev[|disk|..];
      var digits := if NeedsSeparator(disk) then (if rest[0] == 'p' then rest[1..] else "-") else rest;
      if |digits| == 0 || !AllDigits(digits) then None else Some(DecimalValue(digits))
  }

  /** The device name gives back its partition index. */
  lemma PartitionDeviceRoundTrip(disk: string, index: u8)
    ensures PartitionIndexOf(disk, PartitionDevice(disk, index)) == Some(index as nat)
  {
    var dev := PartitionDevice(disk, index);
    var rest := dev[|disk|..];
    if NeedsSeparator(disk) {
      assert rest == "p" + NatToString(index);
      assert rest[1..] == NatToString(index);
    } else {
      assert rest == NatToString(index);
    }
    DecimalValueOfNatToString(index);
  }

  /** Distinct partitions of one disk get distinct device names. */
  lemma PartitionDeviceInjective(disk: string, i: u8, j: u8)
    requires PartitionDevice(disk, i) == PartitionDevice(disk, j)
    ensures i == j
  {
    PartitionDeviceRoundTrip(disk, i);
    PartitionDeviceRoundTrip(disk, j);
  }

  /** The naming rule on the usual device kinds. */
  lemma PartitionDeviceExamples()
    ensures PartitionDevice("/dev/sda", 1) == "/dev/sda1"
    ensures PartitionDevice("/dev/nvme0n1", 2) == "/dev/nvme0n1p2"
    ensures PartitionDevice("/dev/mmcblk0", 3) == "/dev/mmcblk0p3"
    ensures PartitionDevice("", 1) == "1"
  {
    assert NatToString(1) == "1" && NatToString(2) == "2" && NatToString(3) == "3";
  }
}
