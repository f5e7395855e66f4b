/** Layout policy: turns a sparse size request into a fully defaulted layout
    for one install mode, computes the smallest disk that layout needs, and
    lays out the fixed, ordered list of partitions for each mode. */
module Policy {
  import opened Types
  import opened Strings
  import opened Errors

  const DefaultAbTargetSlot: string := "A"
  const DefaultEfiSizeMb: u32 := 1024
  const DefaultAbRootSizeMb: u32 := 20 * 1024
  const DefaultAbMinStateMb: u32 := 4 * 1024
  const DefaultMutableMinRootMb: u32 := 8 * 1024

  /** Fields of the other mode are absent, EFI is always sized, and AB always
      sizes both root slots. */
  predicate WellFormed(layout: ResolvedLayout) {
    match layout.mode
    case Ab => layout.root_size_mb.None? && layout.root_a_size_mb.Some? && layout.root_b_size_mb.Some?
    case Mutable => layout.root_a_size_mb.None? && layout.root_b_size_mb.None? && layout.state_size_mb.None?
  }

  function PolicyDefaults(mode: InstallMode): (r: ResolvedLayout)
    ensures r.mode == mode && WellFormed(r) && r.efi_size_mb == 1024
    ensures mode == Ab ==> r.root_a_size_mb == r.root_b_size_mb == Some(20480) && r.state_size_mb.None?
    ensures mode == Mutable ==> r.root_size_mb.None?
  {
    match mode
    case Ab => ResolvedLayout(mode, DefaultEfiSizeMb, None, Some(DefaultAbRootSizeMb), Some(DefaultAbRootSizeMb), None)
    case Mutable => ResolvedLayout(mode, DefaultEfiSizeMb, None, None, None, None)
  }

  function PolicyError<T>(expectation: string, observed: string, remediation: string): (r: Result<T>)
    ensures r.Err? && r.error.code == PlanGeneration
  {
    Fail(PlanGeneration, "policy", expectation, observed, remediation)
  }

  /** `field.replace('_', "-")`. */
  function FlagName(field: string): (r: string)
    ensures |r| == |field|
  {
    seq(|field|, i requires 0 <= i < |field| => if field[i] == '_' then '-' else field[i])
  }

  /** A supplied size must be positive; a positive one is kept unchanged. */
  function ValidatePositive(field: string, value: u32): (r: Result<u32>)
    ensures r.Ok? <==> value > 0
    ensures r.Ok? ==> r.value == value
    ensures r.Err? ==> r.error.code == PlanGeneration && r.error.observed == field + "=" + NatToString(value)
  {
    if value > 0 then Ok(value)
    else
      PolicyError(field + " is greater than 0", field + "=" + NatToString(value),
                  "Provide a positive value for --" + FlagName(field) + ".")
  }

  /** The AB-only fields of a request, in declaration order. */
  const AbOnlyFields: seq<string> := ["root_a_size_mb", "root_b_size_mb", "state_size_mb"]

  /** The position of an AB-only field name in declaration order. */
  function FieldPosition(name: string): nat {
    if name == "root_a_size_mb" then 0 else if name == "root_b_size_mb" then 1 else 2
  }

  /** The names of the AB-only fields a request sets, in declaration order:
      each set field is named once, no other name appears, and the names
      keep the order root_a, root_b, state. */
  function AbOnlyFieldsSet(request: LayoutRequest): (names: seq<string>)
    ensures |names| <= 3
    ensures names == [] <==> (request.root_a_size_mb.None? && request.root_b_size_mb.None? && request.state_size_mb.None?)
    ensures forall i :: 0 <= i < |names| ==> names[i] in AbOnlyFields
    ensures "root_a_size_mb" in names <==> request.root_a_size_mb.Some?
    ensures "root_b_size_mb" in names <==> request.root_b_size_mb.Some?
    ensures "state_size_mb" in names <==> request.state_size_mb.Some?
    ensures forall i, j :: 0 <= i < j < |names| ==> FieldPosition(names[i]) < FieldPosition(names[j])
  {
    (if request.root_a_size_mb.Some? then ["root_a_size_mb"] else [])
    + (if request.root_b_size_mb.Some? then ["root_b_size_mb"] else [])
    + (if request.state_size_mb.Some? then ["state_size_mb"] else [])
  }

  /** A Mutable request that sets root_a and state names exactly those two,
      in that order, and is refused with PlanGeneration. */
  lemma AbOnlyFieldsExample(rootA: u32, state: u32)
    ensures var request := LayoutRequest(None, None, Some(rootA), None, Some(state));
      AbOnlyFieldsSet(request) == ["root_a_size_mb", "state_size_mb"]
      && ValidateRequestFields(Mutable, request).Err?
      && ValidateRequestFields(Mutable, request).error.code == PlanGeneration
  {
  }

  /** The request sets no field that belongs to the other mode. */
  predicate FieldsBelongToMode(mode: InstallMode, request: LayoutRequest) {
    match mode
    case Ab => request.root_size_mb.None?
    case Mutable => request.root_a_size_mb.None? && request.root_b_size_mb.None? && request.state_size_mb.None?
  }

  function ValidateRequestFields(mode: InstallMode, request: LayoutRequest): (r: Result<()>)
    ensures r.Ok? <==> FieldsBelongToMode(mode, request)
    ensures r.Err? ==> r.error.code == PlanGeneration
    ensures r.Err? && mode == Mutable ==>
      r.error.observed == "invalid fields for mode=mutable: " + Join(AbOnlyFieldsSet(request), ", ")
  {
    match mode
    case Ab =>
      if request.root_size_mb.Some? then
        PolicyError("mutable-only root_size_mb is not set for ab mode", "root_size_mb provided with mode=ab",
                    "Use --root-a-size-mb/--root-b-size-mb/--state-size-mb for ab mode.")
      else Ok(())
    case Mutable =>
      var invalid := AbOnlyFieldsSet(request);
      if invalid != [] then
        PolicyError("ab-only fields are not set for mutable mode",
                    "invalid fields for mode=mutable: " + Join(invalid, ", "),
                    "Use only --efi-size-mb and --root-size-mb for mutable mode.")
      else Ok(())
  }

  function StateFloorError<T>(state: u32): Result<T> {
    PolicyError("state_size_mb is at least " + NatToString(DefaultAbMinStateMb),
                "state_size_mb=" + NatToString(state),
                "Use --state-size-mb >= " + NatToString(DefaultAbMinStateMb) + " for ab mode.")
  }

  function RootFloorError<T>(root: u32): Result<T> {
    PolicyError("root_size_mb is at least " + NatToString(DefaultMutableMinRootMb),
                "root_size_mb=" + NatToString(root),
                "Use --root-size-mb >= " + NatToString(DefaultMutableMinRootMb) + " for mutable mode.")
  }

  /** The resolution the source performs, check by check: field exclusivity
      first, then EFI, then the mode's own fields in declaration order. */
  function Resolve(mode: InstallMode, request: LayoutRequest): Result<ResolvedLayout> {
    var _ :- ValidateRequestFields(mode, request);
    var defaults := PolicyDefaults(mode);
    var efi :- if request.efi_size_mb.Some? then ValidatePositive("efi_size_mb", request.efi_size_mb.value)
               else Ok(defaults.efi_size_mb);
    match mode
    case Ab =>
      var rootA :- if request.root_a_size_mb.Some? then ValidatePositive("root_a_size_mb", request.root_a_size_mb.value)
                   else Ok(DefaultAbRootSizeMb);
      var rootB :- if request.root_b_size_mb.Some? then ValidatePositive("root_b_size_mb", request.root_b_size_mb.value)
                   else Ok(DefaultAbRootSizeMb);
      if request.state_size_mb.None? then
        Ok(defaults.(efi_size_mb := efi, root_a_size_mb := Some(rootA), root_b_size_mb := Some(rootB)))
      else
        var state :- ValidatePositive("state_size_mb", request.state_size_mb.value);
        if state < DefaultAbMinStateMb then StateFloorError(state)
        else Ok(defaults.(efi_size_mb := efi, root_a_size_mb := Some(rootA), root_b_size_mb := Some(rootB),
                          state_size_mb := Some(state)))
    case Mutable =>
      if request.root_size_mb.None? then Ok(defaults.(efi_size_mb := efi))
      else
        var root :- ValidatePositive("root_size_mb", request.root_size_mb.value);
        if root < DefaultMutableMinRootMb then RootFloorError(root)
        else Ok(defaults.(efi_size_mb := efi, root_size_mb := Some(root)))
  }

  /** `resolve_layout_request`: start from the defaults and overwrite one
      field at a time, returning at the first rejected value. */
  method ResolveLayoutRequest(mode: InstallMode, request: LayoutRequest) returns (r: Result<ResolvedLayout>)
    ensures r == Resolve(mode, request)
  {
    var fields := ValidateRequestFields(mode, request);
    if fields.Err? {
      return Err(fields.error);
    }
    var resolved := PolicyDefaults(mode);
    if request.efi_size_mb.Some? {
      var efi := ValidatePositive("efi_size_mb", request.efi_size_mb.value);
      if efi.Err? {
        return Err(efi.error);
      }
      resolved := resolved.(efi_size_mb := efi.value);
    }
    match mode {
      case Ab =>
        if request.root_a_size_mb.Some? {
          var rootA := ValidatePositive("root_a_size_mb", request.root_a_size_mb.value);
          if rootA.Err? {
            return Err(rootA.error);
          }
          resolved := resolved.(root_a_size_mb := Some(rootA.value));
        }
        if request.root_b_size_mb.Some? {
          var rootB := ValidatePositive("root_b_size_mb", request.root_b_size_mb.value);
          if rootB.Err? {
            return Err(rootB.error);
          }
          resolved := resolved.(root_b_size_mb := Some(rootB.value));
        }
        if request.state_size_mb.Some? {
          var state := ValidatePositive("state_size_mb", request.state_size_mb.value);
          if state.Err? {
            return Err(state.error);
          }
          if state.value < DefaultAbMinStateMb {
            return StateFloorError(state.value);
          }
          resolved := resolved.(state_size_mb := Some(state.value));
        }
      case Mutable =>
        if request.root_size_mb.Some? {
          var root := ValidatePositive("root_size_mb", request.root_size_mb.value);
          if root.Err? {
            return Err(root.error);
          }
          if root.value < DefaultMutableMinRootMb {
            return RootFloorError(root.value);
          }
          resolved := resolved.(root_size_mb := Some(root.value));
        }
    }
    return Ok(resolved);
  }

  // ------------------------------------------------ the reference definition

  predicate PositiveIfSet(size: Option<u32>) {
    size.Some? ==> size.value > 0
  }

  predicate AtLeastIfSet(size: Option<u32>, floor: nat) {
    size.Some? ==> size.value >= floor
  }

  /** Which requests the policy accepts, stated as one condition. */
  predicate Admissible(mode: InstallMode, request: LayoutRequest) {
    FieldsBelongToMode(mode, request) && PositiveIfSet(request.efi_size_mb)
    && match mode
       case Ab =>
         PositiveIfSet(request.root_a_size_mb) && PositiveIfSet(request.root_b_size_mb)
         && AtLeastIfSet(request.state_size_mb, DefaultAbMinStateMb)
       case Mutable => AtLeastIfSet(request.root_size_mb, DefaultMutableMinRootMb)
  }

  /** The layout an admissible request stands for: every supplied size copied,
      every other size defaulted, the other mode's fields absent. */
  function Expected(mode: InstallMode, request: LayoutRequest): ResolvedLayout {
    ResolvedLayout(
      mode,
      request.efi_size_mb.GetOr(DefaultEfiSizeMb),
      if mode == Mutable then request.root_size_mb else None,
      if mode == Ab then Some(request.root_a_size_mb.GetOr(DefaultAbRootSizeMb)) else None,
      if mode == Ab then Some(request.root_b_size_mb.GetOr(DefaultAbRootSizeMb)) else None,
      if mode == Ab then request.state_size_mb else None)
  }

  /** Resolution succeeds exactly on admissible requests and then yields the
      expected layout; every failure is a plan-generation error. */
  lemma ResolveCharacterized(mode: InstallMode, request: LayoutRequest)
    ensures Resolve(mode, request).Ok? <==> Admissible(mode, request)
    ensures Resolve(mode, request).Ok? ==> Resolve(mode, request).value == Expected(mode, request)
    ensures Resolve(mode, request).Err? ==> Resolve(mode, request).error.code == PlanGeneration
  {
    match mode {
      case Ab => ResolveAb(request);
      case Mutable => ResolveMutable(request);
    }
  }

  lemma ResolveAb(request: LayoutRequest)
    ensures Resolve(Ab, request).Ok? <==> Admissible(Ab, request)
    ensures Resolve(Ab, request).Ok? ==> Resolve(Ab, request).value == Expected(Ab, request)
    ensures Resolve(Ab, request).Err? ==> Resolve(Ab, request).error.code == PlanGeneration
  {
    ResolveAbAccepts(request);
  }

  lemma ResolveAbAccepts(request: LayoutRequest)
    ensures Resolve(Ab, request).Ok? <==> Admissible(Ab, request)
    ensures Resolve(Ab, request).Err? ==> Resolve(Ab, request).error.code == PlanGeneration
  {
  }

  lemma ResolveMutable(request: LayoutRequest)
    ensures Resolve(Mutable, request).Ok? <==> Admissible(Mutable, request)
    ensures Resolve(Mutable, request).Ok? ==> Resolve(Mutable, request).value == Expected(Mutable, request)
    ensures Resolve(Mutable, request).Err? ==> Resolve(Mutable, request).error.code == PlanGeneration
  {
  }

  /** Whatever it is asked, the policy returns a layout of the requested mode
      with the other mode's fields absent. */
  lemma ResolveWellFormed(mode: InstallMode, request: LayoutRequest)
    requires Resolve(mode, request).Ok?
    ensures Resolve(mode, request).value.mode == mode
    ensures WellFormed(Resolve(mode, request).value)
  {
    ResolveCharacterized(mode, request);
  }

  /** The exclusivity check comes before any size check: a request with a
      field of the other mode fails with that error, whatever its sizes. */
  lemma ExclusivityCheckedFirst(mode: InstallMode, request: LayoutRequest)
    requires !FieldsBelongToMode(mode, request)
    ensures Resolve(mode, request) == Err(ValidateRequestFields(mode, request).error)
  {
  }

  /** A supplied zero fails, naming the field with its value. */
  lemma ZeroSizeRejected(mode: InstallMode, request: LayoutRequest)
    requires FieldsBelongToMode(mode, request)
    requires request.efi_size_mb == Some(0)
    ensures Resolve(mode, request).Err?
    ensures Resolve(mode, request).error.code == PlanGeneration
    ensures Resolve(mode, request).error.observed == "efi_size_mb=0"
  {
  }

  /** The floors: AB state below 4096 and Mutable root below 8192 fail. */
  lemma FloorsEnforced(mode: InstallMode, request: LayoutRequest)
    requires FieldsBelongToMode(mode, request)
    requires (mode == Ab && request.state_size_mb.Some? && request.state_size_mb.value < 4096)
          || (mode == Mutable && request.root_size_mb.Some? && request.root_size_mb.value < 8192)
    ensures Resolve(mode, request).Err? && Resolve(mode, request).error.code == PlanGeneration
  {
    ResolveCharacterized(mode, request);
  }

  // -------------------------------------------------------- capacity needed

  /** The least disk size, in MB, a layout needs: each partition at its
      resolved size, or at its mode's floor when it is unsized. The source
      adds these as `u32` values; here the sum is unbounded (see
      RequiredMinMbWrapped). */
  function RequiredMinMb(layout: ResolvedLayout): (r: nat)
    ensures r >= layout.efi_size_mb
    ensures r < 4 * 0x1_0000_0000
  {
    match layout.mode
    case Ab =>
      layout.efi_size_mb + layout.root_a_size_mb.GetOr(DefaultAbRootSizeMb)
      + layout.root_b_size_mb.GetOr(DefaultAbRootSizeMb) + layout.state_size_mb.GetOr(DefaultAbMinStateMb)
    case Mutable => layout.efi_size_mb + layout.root_size_mb.GetOr(DefaultMutableMinRootMb)
  }

  const U32Modulus: nat := 0x1_0000_0000

  /** One `u32` addition in a build where overflow wraps around. */
  function WrapAdd(a: u32, b: u32): (r: u32)
    ensures a + b < U32Modulus ==> r == a + b
    ensures a + b >= U32Modulus ==> r == a + b - U32Modulus
  {
    (a + b) % U32Modulus
  }

  /** The same sum computed as the source writes it: `u32` additions from left
      to right, each wrapping around. The result is the unbounded sum modulo
      2^32, equal to it exactly when it fits, and smaller otherwise. */
  function RequiredMinMbWrapped(layout: ResolvedLayout): (r: u32)
    ensures r == RequiredMinMb(layout) % U32Modulus
    ensures RequiredMinMb(layout) < U32Modulus ==> r == RequiredMinMb(layout)
    ensures RequiredMinMb(layout) >= U32Modulus ==> r < RequiredMinMb(layout)
  {
    ResidueBounds(RequiredMinMb(layout));
    match layout.mode
    case Ab =>
      var rootA := layout.root_a_size_mb.GetOr(DefaultAbRootSizeMb);
      var rootB := layout.root_b_size_mb.GetOr(DefaultAbRootSizeMb);
      var state := layout.state_size_mb.GetOr(DefaultAbMinStateMb);
      WrapAddChain(layout.efi_size_mb, rootA, rootB, state);
      WrapAdd(WrapAdd(WrapAdd(layout.efi_size_mb, rootA), rootB), state)
    case Mutable =>
      var root := layout.root_size_mb.GetOr(DefaultMutableMinRootMb);
      WrapAddShift(layout.efi_size_mb, root);
      WrapAdd(layout.efi_size_mb, root)
  }

  /** Three wrapping additions give the unbounded sum of four terms modulo
      2^32. */
  lemma WrapAddChain(a: u32, b: u32, c: u32, d: u32)
    ensures WrapAdd(WrapAdd(WrapAdd(a, b), c), d) == (a + b + c + d) % U32Modulus
  {
    WrapAddShift(a, b);
    WrapAddShift(a + b, c);
    WrapAddShift(a + b + c, d);
  }

  /** A residue modulo 2^32 is the number itself below 2^32 and smaller above. */
  lemma ResidueBounds(z: nat)
    ensures z < U32Modulus ==> z % U32Modulus == z
    ensures z >= U32Modulus ==> z % U32Modulus < z
  {
  }

  /** Wrapping a partial sum before adding the next term does not change the
      result modulo 2^32. */
  lemma WrapAddShift(x: nat, y: nat)
    ensures (x % U32Modulus + y) % U32Modulus == (x + y) % U32Modulus
  {
    var q := x / U32Modulus;
    assert x == q * U32Modulus + x % U32Modulus;
    ModuloShift(q, x % U32Modulus + y);
  }

  /** Adding whole multiples of 2^32 does not change a residue. */
  lemma {:induction false} ModuloShift(q: nat, z: nat)
    ensures (q * U32Modulus + z) % U32Modulus == z % U32Modulus
  {
    if q > 0 {
      ModuloShift(q - 1, z);
      assert q * U32Modulus + z == ((q - 1) * U32Modulus + z) + U32Modulus;
    }
  }

  // -------------------------------------------------------------- templates

  function Template(index: u8, name: string, fs: string, partLabel: string, gpt: string, size: Option<u32>,
                    mountpoint: string): PartitionTemplate {
    PartitionTemplate(index, name, fs, partLabel, gpt, size, mountpoint)
  }

  function BuildTemplates(layout: ResolvedLayout): (parts: seq<PartitionTemplate>)
    ensures |parts| == (if layout.mode == Ab then 4 else 2)
  {
    var efi := Template(1, "efi", "vfat", "EFI", "U", Some(layout.efi_size_mb), "/boot");
    match layout.mode
    case Ab => [
      efi,
      Template(2, "root_a", "ext4", "ROOT_A", "L", layout.root_a_size_mb, "/slots/A"),
      Template(3, "root_b", "ext4", "ROOT_B", "L", layout.root_b_size_mb, "/slots/B"),
      Template(4, "state", "ext4", "STATE", "L", layout.state_size_mb, "/state")]
    case Mutable => [
      efi,
      Template(2, "root", "ext4", "ROOT", "L", layout.root_size_mb, "/")]
  }

  function Labels(parts: seq<PartitionTemplate>): seq<string> {
    seq(|parts|, i requires 0 <= i < |parts| => parts[i].part_label)
  }

  /** The layout of each mode: indices 1..n in order, the fixed labels, EFI
      first as a sized vfat "U" partition, every other partition ext4 "L"
      with the layout's own size. */
  lemma TemplatesShape(layout: ResolvedLayout)
    ensures var parts := BuildTemplates(layout);
      (forall i :: 0 <= i < |parts| ==> parts[i].index == i + 1)
      && Labels(parts) == (if layout.mode == Ab then ["EFI", "ROOT_A", "ROOT_B", "STATE"] else ["EFI", "ROOT"])
      && parts[0].filesystem == "vfat" && parts[0].gpt_type == "U" && parts[0].size_mb == Some(layout.efi_size_mb)
      && (forall i :: 1 <= i < |parts| ==> parts[i].filesystem == "ext4" && parts[i].gpt_type == "L")
      && (layout.mode == Ab ==> parts[1].size_mb == layout.root_a_size_mb && parts[2].size_mb == layout.root_b_size_mb
                                && parts[3].size_mb == layout.state_size_mb)
      && (layout.mode == Mutable ==> parts[1].size_mb == layout.root_size_mb)
  {
    var parts := BuildTemplates(layout);
    assert Labels(parts) == (if layout.mode == Ab then ["EFI", "ROOT_A", "ROOT_B", "STATE"] else ["EFI", "ROOT"]);
  }

  /** Only the last template may take the remaining space. */
  lemma OnlyLastIsRemaining(layout: ResolvedLayout)
    requires WellFormed(layout)
    ensures var parts := BuildTemplates(layout);
      forall i :: 0 <= i < |parts| - 1 ==> parts[i].size_mb.Some?
  {
  }

  /** The sum of the fixed sizes. */
  function FixedSum(parts: seq<PartitionTemplate>): nat
    decreases |parts|
  {
    if parts == [] then 0 else parts[0].size_mb.GetOr(0) + FixedSum(parts[1..])
  }

  predicate HasRemaining(parts: seq<PartitionTemplate>) {
    exists i :: 0 <= i < |parts| && parts[i].size_mb.None?
  }

  /** The fixed sizes never add up to more than the required minimum, and
      leave at least a megabyte when some partition takes the remaining space.
      This holds for every layout, resolved or not. */
  lemma FixedSumBelowRequired(layout: ResolvedLayout)
    ensures FixedSum(BuildTemplates(layout)) <= RequiredMinMb(layout)
    ensures HasRemaining(BuildTemplates(layout)) ==> FixedSum(BuildTemplates(layout)) < RequiredMinMb(layout)
  {
    var parts := BuildTemplates(layout);
    var n := |parts|;
    assert FixedSum(parts[n..]) == 0 by { assert parts[n..] == []; }
    assert FixedSum(parts[n - 1..]) == parts[n - 1].size_mb.GetOr(0) by { assert parts[n - 1..][1..] == parts[n..]; }
    assert FixedSum(parts[1..]) == parts[1].size_mb.GetOr(0) + FixedSum(parts[2..]) by { assert parts[1..][1..] == parts[2..]; }
    if layout.mode == Ab {
      assert FixedSum(parts[2..]) == parts[2].size_mb.GetOr(0) + FixedSum(parts[3..]) by { assert parts[2..][1..] == parts[3..]; }
    }
    if HasRemaining(parts) {
      var i :| 0 <= i < |parts| && parts[i].size_mb.None?;
    }
  }
}
