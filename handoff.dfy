/** The handoff record an apply run ends with: where the new system is
    mounted, the commands that continue the installation, and the slot
    context of the install mode. */
module Handoff {
  import opened Types
  import opened Strings
  import opened Policy
  import opened Plan

  const DefaultInstallTarget: string := "/mnt/sysroot"

  const SetNextHint: string := "# after validation, choose slot policy with recab set-next <A|B>"
  const AbNotes: seq<string> := [
    "A/B mode defaults install target to slot A for first install run.",
    "Use recab to manage active/inactive slot transitions after installation."]
  const MutableNotes: seq<string> := ["Mutable mode uses a single writable root partition."]

  /** The position of the first mount whose path ends in "/sysroot", or the
      number of mounts when there is none. */
  function FirstSysroot(mounted: seq<MountMapping>): (i: nat)
    ensures i <= |mounted|
    ensures i < |mounted| ==> EndsWith(mounted[i].path, "/sysroot")
    ensures forall j :: 0 <= j < i ==> !EndsWith(mounted[j].path, "/sysroot")
    decreases |mounted|
  {
    if mounted == [] then 0
    else if EndsWith(mounted[0].path, "/sysroot") then 0
    else 1 + FirstSysroot(mounted[1..])
  }

  /** The path of the first sysroot mount, or "/mnt/sysroot". */
  function InstallTarget(mounted: seq<MountMapping>): string {
    var i := FirstSysroot(mounted);
    if i < |mounted| then mounted[i].path else DefaultInstallTarget
  }

  /** The install target is the first mount path ending in "/sysroot" when
      there is one, and "/mnt/sysroot" only when there is none. */
  lemma InstallTargetCharacterized(mounted: seq<MountMapping>)
    ensures (exists i :: 0 <= i < |mounted| && EndsWith(mounted[i].path, "/sysroot")) ==>
      exists i :: 0 <= i < |mounted| && EndsWith(mounted[i].path, "/sysroot")
        && (forall j :: 0 <= j < i ==> !EndsWith(mounted[j].path, "/sysroot"))
        && InstallTarget(mounted) == mounted[i].path
    ensures (forall i :: 0 <= i < |mounted| ==> !EndsWith(mounted[i].path, "/sysroot")) ==>
      InstallTarget(mounted) == DefaultInstallTarget
  {
    var k := FirstSysroot(mounted);
    if exists i :: 0 <= i < |mounted| && EndsWith(mounted[i].path, "/sysroot") {
      var i :| 0 <= i < |mounted| && EndsWith(mounted[i].path, "/sysroot");
      assert k <= i;
    }
  }

  /** The three commands every mode starts with. */
  function BaseCommands(target: string): seq<string> {
    ["recstrap " + target, "recfstab " + target + " >> " + target + "/etc/fstab", "recchroot " + target]
  }

  function NextCommands(mode: InstallMode, target: string): seq<string> {
    BaseCommands(target) + (if mode == Ab then ["recab status", SetNextHint] else [])
  }

  function SlotContext(mode: InstallMode, disk: string): ModeContext {
    match mode
    case Ab =>
      var targetSlot := DefaultAbTargetSlot;
      var inactive := if targetSlot == "A" then "B" else "A";
      ModeContext(Some(targetSlot), Some(inactive), Some(PartitionDevice(disk, 2)), Some(PartitionDevice(disk, 3)),
                  AbNotes)
    case Mutable => ModeContext(None, None, None, None, MutableNotes)
  }

  /** The handoff of a plan once its mounts are in place. */
  function HandoffFor(plan: PartitionPlan, mounted: seq<MountMapping>): HandoffPayload {
    var target := InstallTarget(mounted);
    HandoffPayload(HandoffSchemaVersion, plan.mode, target, mounted, NextCommands(plan.mode, target),
                   SlotContext(plan.mode, plan.disk.path))
  }

  /** `build_handoff`: the three base commands, two more pushed for AB, and
      the mode's slot context. */
  method BuildHandoff(plan: PartitionPlan, mounted: seq<MountMapping>) returns (h: HandoffPayload)
    ensures h == HandoffFor(plan, mounted)
  {
    var target := InstallTarget(mounted);
    var commands := BaseCommands(target);
    var context: ModeContext;
    match plan.mode {
      case Ab =>
        var targetSlot := DefaultAbTargetSlot;
        var inactive := if targetSlot == "A" then "B" else "A";
        commands := commands + ["recab status"];
        commands := commands + [SetNextHint];
        context := ModeContext(Some(targetSlot), Some(inactive), Some(PartitionDevice(plan.disk.path, 2)),
                               Some(PartitionDevice(plan.disk.path, 3)), AbNotes);
      case Mutable =>
        context := ModeContext(None, None, None, None, MutableNotes);
    }
    h := HandoffPayload(HandoffSchemaVersion, plan.mode, target, mounted, commands, context);
  }

  /** The commands: recstrap, recfstab appending to the target's fstab and
      recchroot, all on the install target, then for AB two recab steps. */
  lemma HandoffCommands(plan: PartitionPlan, mounted: seq<MountMapping>)
    ensures var h := HandoffFor(plan, mounted);
      var t := h.install_target;
      |h.next_commands| == (if plan.mode == Ab then 5 else 3)
      && h.next_commands[..3] == ["recstrap " + t, "recfstab " + t + " >> " + t + "/etc/fstab", "recchroot " + t]
      && (plan.mode == Ab ==> h.next_commands[3] == "recab status" && h.next_commands[4] == SetNextHint)
  {
  }

  /** The handoff echoes what it was given: the mounts unchanged, the plan's
      mode, schema version 1. */
  lemma HandoffEchoes(plan: PartitionPlan, mounted: seq<MountMapping>)
    ensures var h := HandoffFor(plan, mounted);
      h.mount_map == mounted && h.mode == plan.mode && h.schema_version == 1
  {
  }

  /** AB targets slot A, hints slot B, and names as slot devices the two root
      partitions of the plan's own layout; Mutable has no slot context and a
      single note. */
  lemma HandoffSlotContext(disk: DiskTarget, mode: InstallMode, request: LayoutRequest, mounted: seq<MountMapping>)
    requires BuildPlanWithLayoutRequest(disk, mode, request).Ok?
    ensures var plan := BuildPlanWithLayoutRequest(disk, mode, request).value;
      var c := HandoffFor(plan, mounted).mode_context;
      (mode == Ab ==>
        c.install_target_slot == Some("A") && c.inactive_slot_hint == Some("B")
        && plan.partitions[1].part_label == "ROOT_A" && plan.partitions[2].part_label == "ROOT_B"
        && c.slot_a_device == Some(PartitionDevice(disk.path, plan.partitions[1].index))
        && c.slot_b_device == Some(PartitionDevice(disk.path, plan.partitions[2].index)))
      && (mode == Mutable ==>
        c.install_target_slot.None? && c.inactive_slot_hint.None? && c.slot_a_device.None?
        && c.slot_b_device.None? && |c.notes| == 1)
  {
    var plan := BuildPlanWithLayoutRequest(disk, mode, request).value;
    TemplatesShape(plan.resolved_layout);
    if mode == Ab {
      assert Labels(plan.partitions)[1] == plan.partitions[1].part_label;
      assert Labels(plan.partitions)[2] == plan.partitions[2].part_label;
    }
  }
}
