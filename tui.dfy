/** The decisions of the interactive wizard: how a typed selection, a yes/no
    answer and the confirmation token are read, when the terminal is large
    enough, how the size is probed, and how the progress counter numbers the
    commands of a destructive run. Prompts and printing are left to the
    caller; the lines the user types are given as a sequence of reads that
    ends in end-of-file. */
module Tui {
  import opened Types
  import opened Strings
  import opened Errors
  import opened Preflight
  import opened Exec

  const MinTerminalCols: nat := 80
  const MinTerminalRows: nat := 24

  /** `usize` on a 64-bit target. */
  const UsizeBound: nat := 0x1_0000_0000_0000_0000
  const U16Bound: nat := 0x1_0000

  type u16 = x: int | 0 <= x < 0x1_0000

  // ----------------------------------------------------------- reading lines

  /** What one `prompt_line` call gets: a line (without any I/O failure), or
      the stdout flush or the stdin read failing with the given message. */
  datatype LineRead = Line(text: string) | FlushError(message: string) | ReadError(message: string)

  function FlushFailure(message: string): RecpartError {
    RecpartError(Internal, "tui", "stdout flush succeeds", message, "Ensure terminal output is writable.")
  }

  function ReadFailure(message: string): RecpartError {
    RecpartError(Internal, "tui", "stdin read succeeds", message, "Ensure terminal input is available.")
  }

  /** A re-prompting loop over `inputs`: the first line `accept` takes decides
      the result, a failed flush or read ends the loop with Internal, and past
      the last read every line is empty (`read_line` at end-of-file). The
      loops of the wizard accept the empty line, so they always stop. */
  function FirstAccepted<T>(inputs: seq<LineRead>, accept: string -> Option<T>): Result<T>
    requires accept("").Some?
    decreases |inputs|
  {
    if inputs == [] then Ok(accept("").value)
    else match inputs[0]
      case FlushError(m) => Err(FlushFailure(m))
      case ReadError(m) => Err(ReadFailure(m))
      case Line(t) => if accept(t).Some? then Ok(accept(t).value) else FirstAccepted(inputs[1..], accept)
  }

  /** The loop stops at the first read that is not a rejected line: an
      accepted line gives its value, a failed read gives an Internal error,
      and when every line is rejected the empty end-of-file line decides. */
  lemma {:induction false} FirstAcceptedCharacterized<T>(inputs: seq<LineRead>, accept: string -> Option<T>, i: nat)
    requires accept("").Some?
    requires i <= |inputs|
    requires forall j :: 0 <= j < i ==> inputs[j].Line? && accept(inputs[j].text).None?
    ensures FirstAccepted(inputs, accept).Err? ==> FirstAccepted(inputs, accept).error.code == Internal
    ensures i == |inputs| ==> FirstAccepted(inputs, accept) == Ok(accept("").value)
    ensures (i < |inputs| && inputs[i].Line? && accept(inputs[i].text).Some?) ==>
      FirstAccepted(inputs, accept) == Ok(accept(inputs[i].text).value)
    ensures i < |inputs| && inputs[i].FlushError? ==> FirstAccepted(inputs, accept) == Err(FlushFailure(inputs[i].message))
    ensures i < |inputs| && inputs[i].ReadError? ==> FirstAccepted(inputs, accept) == Err(ReadFailure(inputs[i].message))
    decreases i
  {
    if i > 0 {
      var rest := inputs[1..];
      assert forall j :: 0 <= j < i - 1 ==> rest[j] == inputs[j + 1];
      FirstAcceptedCharacterized(rest, accept, i - 1);
    } else if inputs != [] && inputs[0].Line? && accept(inputs[0].text).None? {
      FirstAcceptedErrors(inputs[1..], accept);
    }
  }

  lemma {:induction false} FirstAcceptedErrors<T>(inputs: seq<LineRead>, accept: string -> Option<T>)
    requires accept("").Some?
    ensures FirstAccepted(inputs, accept).Err? ==> FirstAccepted(inputs, accept).error.code == Internal
    decreases |inputs|
  {
    if inputs != [] && inputs[0].Line? && accept(inputs[0].text).None? {
      FirstAcceptedErrors(inputs[1..], accept);
    }
  }

  // ------------------------------------------------------------- selections

  const NotANumber: string := "Enter a number from the displayed list."

  function RangeMessage(max: nat): string {
    "Selection must be between 1 and " + NatToString(max) + "."
  }

  /** What `parse_selection_input` returns: a selection or the message shown
      before asking again. */
  datatype Selection = Selected(value: nat) | Rejected(message: string)

  /** `parse_selection_input`: empty input chooses the default, anything that
      `usize` parsing refuses is not a number, and a number outside 1..max is
      refused with the range. */
  function ParseSelectionInput(input: string, max: nat, default: nat): (r: Selection)
    ensures Trim(input) == [] ==> r == Selected(default)
    ensures Trim(input) != [] ==>
      (r.Selected? <==> (ParseUnsigned(Trim(input), UsizeBound).Parsed?
                         && 1 <= ParseUnsigned(Trim(input), UsizeBound).value <= max))
    ensures Trim(input) != [] && r.Selected? ==>
      r.value == ParseUnsigned(Trim(input), UsizeBound).value && 1 <= r.value <= max
    ensures r.Rejected? ==>
      (r.message == NotANumber <==> ParseUnsigned(Trim(input), UsizeBound).ParseFailed?)
  {
    var trimmed := Trim(input);
    if trimmed == [] then Selected(default)
    else
      var parsed := ParseUnsigned(trimmed, UsizeBound);
      if parsed.ParseFailed? then Rejected(NotANumber)
      else if parsed.value == 0 || parsed.value > max then
        assert RangeMessage(max) != NotANumber by { assert RangeMessage(max)[0] != NotANumber[0]; }
        Rejected(RangeMessage(max))
      else Selected(parsed.value)
  }

  /** With a default inside the list, every selection is a valid position. */
  lemma SelectionInRange(input: string, max: nat, default: nat)
    requires 1 <= default <= max
    ensures ParseSelectionInput(input, max, default).Selected? ==>
      1 <= ParseSelectionInput(input, max, default).value <= max
  {
  }

  /** Typing a listed number, with any whitespace around it, selects it. */
  lemma SelectionOfPrinted(pre: string, n: nat, post: string, max: nat, default: nat)
    requires AllWhitespace(pre) && AllWhitespace(post)
    requires 1 <= n <= max < UsizeBound
    ensures ParseSelectionInput(pre + NatToString(n) + post, max, default) == Selected(n)
  {
    var s := NatToString(n);
    assert IsAsciiDigit(s[0]) && IsAsciiDigit(s[|s| - 1]);
    TrimPadded(pre, s, post);
    ParseNatToString(n, UsizeBound);
  }

  /** A number outside 1..max is refused with the range message. */
  lemma SelectionOutOfRange(n: nat, max: nat, default: nat)
    requires n < UsizeBound && (n == 0 || n > max)
    ensures ParseSelectionInput(NatToString(n), max, default) == Rejected(RangeMessage(max))
  {
    TrimNatToString(n);
    ParseNatToString(n, UsizeBound);
  }

  /** The range message names the valid range "between 1 and max". */
  lemma RangeMessageNamesRange(max: nat)
    ensures Contains(RangeMessage(max), "between 1 and " + NatToString(max))
  {
    var m := RangeMessage(max);
    var part := "between 1 and " + NatToString(max);
    assert m == "Selection must be " + part + ".";
    assert m[18..18 + |part|] == part;
    assert OccursAt(m, part, 18);
  }

  lemma {:induction false} ScanRejectsNonDigit(d: string, bound: nat, acc: nat)
    requires exists i :: 0 <= i < |d| && !IsAsciiDigit(d[i])
    ensures ScanDigits(d, bound, acc).ParseFailed?
    decreases |d|
  {
    if IsAsciiDigit(d[0]) && acc * 10 + DigitValue(d[0]) < bound {
      var i :| 0 <= i < |d| && !IsAsciiDigit(d[i]);
      assert d[1..][i - 1] == d[i];
      ScanRejectsNonDigit(d[1..], bound, acc * 10 + DigitValue(d[0]));
    }
  }

  /** Input holding a character that is neither a digit nor '+' is not a
      number, whatever its magnitude. */
  lemma NonNumericRejected(input: string, max: nat, default: nat)
    requires exists i :: 0 <= i < |Trim(input)| && !IsAsciiDigit(Trim(input)[i]) && Trim(input)[i] != '+'
    ensures ParseSelectionInput(input, max, default) == Rejected(NotANumber)
  {
    var t := Trim(input);
    var i :| 0 <= i < |t| && !IsAsciiDigit(t[i]) && t[i] != '+';
    if !(|t| == 1 && (t[0] == '+' || t[0] == '-')) {
      if t[0] == '+' {
        assert t[1..][i - 1] == t[i];
        ScanRejectsNonDigit(t[1..], UsizeBound, 0);
      } else {
        ScanRejectsNonDigit(t, UsizeBound, 0);
      }
    }
  }

  /** The cases the source's own unit tests name: blank input takes the
      default, 9 of 3 is refused naming "between 1 and 3", 3 of 3 is taken. */
  lemma BlankSelectsDefault()
    ensures ParseSelectionInput("  ", 5, 2) == Selected(2)
  {
    assert AllWhitespace("  ");
    DefaultOnlyForEmpty("  ");
  }

  lemma OutOfRangeExample()
    ensures ParseSelectionInput("9", 3, 1).Rejected?
    ensures Contains(ParseSelectionInput("9", 3, 1).message, "between 1 and 3")
  {
    assert NatToString(9) == "9";
    assert NatToString(3) == "3";
    SelectionOutOfRange(9, 3, 1);
    RangeMessageNamesRange(3);
    assert "between 1 and " + NatToString(3) == "between 1 and 3";
  }

  lemma InRangeExample()
    ensures ParseSelectionInput("3", 3, 1) == Selected(3)
  {
    assert NatToString(3) == "3";
    SelectionOfPrinted("", 3, "", 3, 1);
    assert "" + "3" + "" == "3";
  }

  /** The line filter of `prompt_selection`. */
  function SelectionAccept(max: nat, default: nat): string -> Option<nat> {
    s => var r := ParseSelectionInput(s, max, default); if r.Selected? then Some(r.value) else None
  }

  /** `prompt_selection`: ask until a line parses as a selection. */
  method PromptSelection(inputs: seq<LineRead>, max: nat, default: nat) returns (r: Result<nat>)
    ensures r == FirstAccepted<nat>(inputs, SelectionAccept(max, default))
  {
    ghost var accept := SelectionAccept(max, default);
    var i := 0;
    while i < |inputs|
      invariant 0 <= i <= |inputs|
      invariant FirstAccepted(inputs[i..], accept) == FirstAccepted(inputs, accept)
    {
      assert inputs[i..][0] == inputs[i];
      match inputs[i] {
        case FlushError(m) => return Err(FlushFailure(m));
        case ReadError(m) => return Err(ReadFailure(m));
        case Line(t) =>
          var parsed := ParseSelectionInput(t, max, default);
          if parsed.Selected? {
            return Ok(parsed.value);
          }
      }
      assert inputs[i..][1..] == inputs[i + 1..];
      i := i + 1;
    }
    return Ok(default);
  }

  /** With a default inside the list the loop only ever returns a valid
      position. */
  lemma {:induction false} PromptedSelectionInRange(inputs: seq<LineRead>, max: nat, default: nat)
    requires 1 <= default <= max
    ensures var r := FirstAccepted<nat>(inputs, SelectionAccept(max, default));
      r.Ok? ==> 1 <= r.value <= max
    decreases |inputs|
  {
    SelectionAcceptsBlank(max, default);
    if inputs != [] && inputs[0].Line? {
      SelectionAcceptInRange(inputs[0].text, max, default);
      PromptedSelectionInRange(inputs[1..], max, default);
    }
  }

  lemma SelectionAcceptsBlank(max: nat, default: nat)
    ensures SelectionAccept(max, default)("") == Some(default)
  {
    assert Trim("") == [];
  }

  lemma SelectionAcceptInRange(s: string, max: nat, default: nat)
    requires 1 <= default <= max
    ensures SelectionAccept(max, default)(s).Some? ==> 1 <= SelectionAccept(max, default)(s).value <= max
  {
    SelectionInRange(s, max, default);
  }

  /** The disk step of the wizard: no candidate disk is an error, otherwise
      the selection (default 1) picks a disk; `disks[selection - 1]` is never
      out of bounds. */
  function SelectDisk(disks: seq<DiskTarget>, inputs: seq<LineRead>): (r: Result<DiskTarget>)
    ensures disks == [] ==> r.Err? && r.error.code == InvalidTargetDisk
    ensures r.Ok? ==> r.value in disks
    ensures disks != [] && r.Err? ==> r.error.code == Internal
    ensures disks != [] && inputs == [] ==> r == Ok(disks[0])
    ensures disks != [] && FirstAccepted<nat>(inputs, SelectionAccept(|disks|, 1)).Ok? ==>
      1 <= FirstAccepted<nat>(inputs, SelectionAccept(|disks|, 1)).value <= |disks|
      && r == Ok(disks[FirstAccepted<nat>(inputs, SelectionAccept(|disks|, 1)).value - 1])
    ensures disks != [] && FirstAccepted<nat>(inputs, SelectionAccept(|disks|, 1)).Err? ==>
      r == Err(FirstAccepted<nat>(inputs, SelectionAccept(|disks|, 1)).error)
  {
    if disks == [] then
      Fail(InvalidTargetDisk, "tui", "at least one candidate disk is available", "no disk or loop devices found",
           "Attach a target disk and rerun recpart tui.")
    else
      SelectionAcceptsBlank(|disks|, 1);
      FirstAcceptedErrors<nat>(inputs, SelectionAccept(|disks|, 1));
      PromptedSelectionInRange(inputs, |disks|, 1);
      var selection := FirstAccepted<nat>(inputs, SelectionAccept(|disks|, 1));
      if selection.Err? then Err(selection.error) else Ok(disks[selection.value - 1])
  }

  /** The mode step: selection 2 of two is Mutable, anything else AB. */
  function SelectMode(inputs: seq<LineRead>): (r: Result<InstallMode>)
    ensures r.Ok? <==> FirstAccepted<nat>(inputs, SelectionAccept(2, 1)).Ok?
    ensures inputs == [] ==> r == Ok(Ab)
    ensures r == Ok(Mutable) <==> FirstAccepted<nat>(inputs, SelectionAccept(2, 1)) == Ok(2)
  {
    var selection :- FirstAccepted<nat>(inputs, SelectionAccept(2, 1));
    Ok(if selection == 2 then Mutable else Ab)
  }

  /** The mount root step: empty input means "/mnt", anything else is used
      trimmed. */
  function MountRootFromInput(input: string): (r: string)
    ensures r != [] && !IsWhitespace(r[0]) && !IsWhitespace(r[|r| - 1])
    ensures Trim(input) == [] ==> r == "/mnt"
    ensures Trim(input) != [] ==> r == Trim(input)
  {
    var t := Trim(input);
    if t == [] then "/mnt" else t
  }

  // ---------------------------------------------------------- yes/no answers

  /** The decision of `prompt_yes_no` on one line: Some(answer), or None to
      ask again. */
  function ClassifyAnswer(input: string, defaultYes: bool): (r: Option<bool>)
    ensures var v := ToAsciiLower(Trim(input));
      (r == Some(true) <==> ((v == [] && defaultYes) || v == "y" || v == "yes"))
      && (r == Some(false) <==> ((v == [] && !defaultYes) || v == "n" || v == "no"))
  {
    var v := ToAsciiLower(Trim(input));
    if v == [] then Some(defaultYes)
    else if v == "y" || v == "yes" then Some(true)
    else if v == "n" || v == "no" then Some(false)
    else None
  }

  /** The default decides only an empty (or all-whitespace) answer. */
  lemma DefaultOnlyForEmpty(input: string)
    ensures AllWhitespace(input) ==> Trim(input) == []
    ensures AllWhitespace(input) ==> ClassifyAnswer(input, true) == Some(true) && ClassifyAnswer(input, false) == Some(false)
    ensures !AllWhitespace(input) ==> ClassifyAnswer(input, true) == ClassifyAnswer(input, false)
  {
    if Trim(input) == [] {
      var t := TrimStart(input);
      var k := |input| - |t|;
      TrimEndEmpty(t);
      TrimStartDropsWhitespace(input);
      assert input == input[..k] + t;
      forall i | 0 <= i < |input| ensures IsWhitespace(input[i]) {
        if i < k {
          assert input[i] == input[..k][i];
        } else {
          assert input[i] == t[i - k];
        }
      }
    }
  }

  lemma {:induction false} TrimEndEmpty(s: string)
    requires TrimEnd(s) == []
    ensures AllWhitespace(s)
    decreases |s|
  {
    if s != [] {
      TrimEndEmpty(s[..|s| - 1]);
      assert forall j :: 0 <= j < |s| - 1 ==> s[j] == s[..|s| - 1][j];
    }
  }

  /** Answers are read case-insensitively and without the surrounding
      whitespace: any capitalisation of y/yes/n/no is recognised. */
  lemma AnswerIgnoresCase(pre: string, w: string, post: string, defaultYes: bool)
    requires AllWhitespace(pre) && AllWhitespace(post)
    requires w != [] && !IsWhitespace(w[0]) && !IsWhitespace(w[|w| - 1])
    ensures ClassifyAnswer(pre + w + post, defaultYes) == ClassifyAnswer(w, defaultYes)
    ensures ToAsciiLower(w) in {"y", "yes"} ==> ClassifyAnswer(pre + w + post, defaultYes) == Some(true)
    ensures ToAsciiLower(w) in {"n", "no"} ==> ClassifyAnswer(pre + w + post, defaultYes) == Some(false)
  {
    TrimPadded(pre, w, post);
    TrimOfWhitespaceFree(w);
  }

  function YesNoAccept(defaultYes: bool): string -> Option<bool> {
    s => ClassifyAnswer(s, defaultYes)
  }

  /** `prompt_yes_no`: ask until the answer is empty, yes or no. */
  method PromptYesNo(inputs: seq<LineRead>, defaultYes: bool) returns (r: Result<bool>)
    ensures r == FirstAccepted(inputs, YesNoAccept(defaultYes))
  {
    EndOfInputTakesDefault(defaultYes);
    ghost var accept := YesNoAccept(defaultYes);
    var i := 0;
    while i < |inputs|
      invariant 0 <= i <= |inputs|
      invariant FirstAccepted(inputs[i..], accept) == FirstAccepted(inputs, accept)
    {
      assert inputs[i..][0] == inputs[i];
      match inputs[i] {
        case FlushError(m) => return Err(FlushFailure(m));
        case ReadError(m) => return Err(ReadFailure(m));
        case Line(t) =>
          var v := ToAsciiLower(Trim(t));
          if v == [] {
            return Ok(defaultYes);
          }
          if v == "y" || v == "yes" {
            return Ok(true);
          }
          if v == "n" || v == "no" {
            return Ok(false);
          }
      }
      assert inputs[i..][1..] == inputs[i + 1..];
      i := i + 1;
    }
    return Ok(defaultYes);
  }

  /** End of input takes the default: the dry-run question then means yes,
      the destructive question no. */
  lemma EndOfInputTakesDefault(defaultYes: bool)
    ensures FirstAccepted([], YesNoAccept(defaultYes)) == Ok(defaultYes)
  {
    assert Trim("") == [];
  }

  // ------------------------------------------------------ confirmation token

  const ConfirmExpectation: string := "confirmation token '" + ConfirmToken + "' matches exactly"
  const ConfirmRemediation: string := "Re-run and type '" + ConfirmToken + "' exactly to proceed."

  /** The token check before a destructive run: the typed line, trimmed, must
      be exactly the confirmation token. */
  function ConfirmTyped(token: string): (r: Result<()>)
    ensures r.Ok? <==> Trim(token) == ConfirmToken
    ensures r.Err? ==> (r.error.code == MissingConfirmation && r.error.component == "tui"
                        && r.error.observed == "received token '" + Trim(token) + "'")
  {
    var t := Trim(token);
    if t != ConfirmToken then
      Fail(MissingConfirmation, "tui", ConfirmExpectation, "received token '" + t + "'", ConfirmRemediation)
    else Ok(())
  }

  /** Whitespace around the token is forgiven. */
  lemma ConfirmTypedPadded(pre: string, post: string)
    requires AllWhitespace(pre) && AllWhitespace(post)
    ensures ConfirmTyped(pre + ConfirmToken + post).Ok?
  {
    TrimPadded(pre, ConfirmToken, post);
  }

  /** The case of the token is not forgiven: "destroy" is refused. */
  lemma ConfirmTypedCaseSensitive()
    ensures ConfirmTyped("destroy").Err?
  {
    var typed := "destroy";
    assert typed[0] == 'd' && typed[|typed| - 1] == 'y';
    assert typed != ConfirmToken by { assert typed[0] != ConfirmToken[0]; }
    ConfirmTypedRefusesOther(typed);
  }

  /** A whitespace-free entry other than the token is refused. */
  lemma ConfirmTypedRefusesOther(typed: string)
    requires typed != [] && !IsWhitespace(typed[0]) && !IsWhitespace(typed[|typed| - 1])
    requires typed != ConfirmToken
    ensures ConfirmTyped(typed).Err?
  {
    TrimOfWhitespaceFree(typed);
  }

  /** The options of the wizard's destructive run. */
  function RealRunOptions(root: string): ApplyOptions {
    ApplyOptions(false, Some(ConfirmToken), root)
  }

  /** The options of the wizard's dry runs. */
  function DryRunOptions(root: string): ApplyOptions {
    ApplyOptions(true, None, root)
  }

  /** Once the typed token is accepted, the wizard passes the exact token on,
      so the confirmation gate of the apply run never refuses it. */
  lemma TypedTokenPassesApplyGate(token: string, root: string)
    requires ConfirmTyped(token).Ok?
    ensures EnsureConfirmation(RealRunOptions(root).confirm_token).Ok?
  {
  }

  // ---------------------------------------------------------- progress count

  /** The number of steps the progress counter is shown against: the steps of
      the earlier dry run, or else of a fresh dry run, or 0 when that fails;
      at least 1. */
  function TotalSteps(earlier: Option<ApplyResult>, recount: Result<ApplyResult>): (n: nat)
    ensures n >= 1
    ensures earlier.Some? ==> n == (if |earlier.value.steps| == 0 then 1 else |earlier.value.steps|)
    ensures earlier.None? && recount.Ok? ==> n == (if |recount.value.steps| == 0 then 1 else |recount.value.steps|)
    ensures earlier.None? && recount.Err? ==> n == 1
  {
    var counted := if earlier.Some? then |earlier.value.steps| else if recount.Ok? then |recount.value.steps| else 0;
    if counted == 0 then 1 else counted
  }

  /** When the dry run succeeds, the total is the number of apply actions:
      13 for AB and 9 for Mutable. */
  lemma TotalStepsCountsActions(plan: PartitionPlan, root: string, sys: System, runner: Runner)
    requires EnsureMountRootSafe(root, sys.isProtectedPath).Ok?
    ensures TotalSteps(None, Apply(plan, DryRunOptions(root), sys, runner))
      == |ApplyActions(plan, root)| == (if plan.mode == Ab then 13 else 9)
  {
    DryRunRecordsActions(plan, DryRunOptions(root), sys, runner);
    ActionPhases(plan, root);
  }

  /** The counter never runs past the total it is shown against. */
  lemma ProgressWithinTotal(plan: PartitionPlan, root: string, sys: System, runner: Runner)
    ensures |Reported(plan, RealRunOptions(root), sys, runner)|
      <= TotalSteps(None, Apply(plan, DryRunOptions(root), sys, runner))
  {
    var opts := RealRunOptions(root);
    if Gates(plan, opts, sys).Err? {
      GateFailureRunsNothing(plan, opts, sys, runner);
    } else {
      assert EnsureMountRootSafe(root, sys.isProtectedPath).Ok?;
      TotalStepsCountsActions(plan, root, sys, runner);
      if Apply(plan, opts, sys, runner).Ok? {
        RealRunSuccess(plan, opts, sys, runner);
      } else {
        RealRunFailure(plan, opts, sys, runner);
      }
    }
  }

  function ProgressLine(completed: nat, total: nat, record: CommandRecord): string {
    "  [" + NatToString(completed) + "/" + NatToString(total) + "] [" + record.phase + "] " + record.command
  }

  /** The lines the reporter prints for the records it has been given. */
  function ProgressLines(records: seq<CommandRecord>, total: nat): (ls: seq<string>)
    ensures |ls| == |records|
    ensures forall i :: 0 <= i < |records| ==> ls[i] == ProgressLine(i + 1, total, records[i])
    decreases |records|
  {
    if records == [] then []
    else ProgressLines(records[..|records| - 1], total) + [ProgressLine(|records|, total, records[|records| - 1])]
  }

  /** The reporter closure of the wizard: it counts the records it is handed
      and prints each as `[completed/total] [phase] command`. */
  class Progress {
    const total: nat
    var completed: nat
    var lines: seq<string>
    ghost var reported: seq<CommandRecord>

    ghost predicate Valid()
      reads this
    {
      completed == |reported| && lines == ProgressLines(reported, total)
    }

    constructor (total: nat)
      ensures this.total == total && completed == 0 && lines == [] && reported == []
      ensures Valid()
    {
      this.total := total;
      completed := 0;
      lines := [];
      reported := [];
    }

    method Report(record: CommandRecord)
      requires Valid()
      modifies this
      ensures Valid()
      ensures reported == old(reported) + [record]
      ensures completed == old(completed) + 1
      ensures lines == old(lines) + [ProgressLine(completed, total, record)]
    {
      completed := completed + 1;
      lines := lines + [ProgressLine(completed, total, record)];
      reported := reported + [record];
      assert reported[..|reported| - 1] == old(reported);
    }
  }

  // ---------------------------------------------------------- terminal size

  datatype TerminalSize = TerminalSize(cols: u16, rows: u16)

  function SizeText(size: TerminalSize): string {
    NatToString(size.cols) + "x" + NatToString(size.rows)
  }

  const ResizeRemediation: string :=
    "Resize terminal to at least " + NatToString(MinTerminalCols) + " columns and " + NatToString(MinTerminalRows)
    + " rows and retry."

  /** `enforce_terminal_minimum`: an unknown size passes, a known one must be
      at least 80 columns by 24 rows. */
  function EnforceTerminalMinimum(size: Option<TerminalSize>): (r: Result<()>)
    ensures r.Ok? <==> size.None? || (size.value.cols >= MinTerminalCols && size.value.rows >= MinTerminalRows)
    ensures r.Err? ==> (r.error.code == Internal && r.error.component == "tui"
                        && r.error.observed == "detected terminal size " + SizeText(size.value)
                        && r.error.remediation == ResizeRemediation)
  {
    if size.None? || (size.value.cols >= MinTerminalCols && size.value.rows >= MinTerminalRows) then Ok(())
    else
      Fail(Internal, "tui", "terminal is at least " + NatToString(MinTerminalCols) + "x" + NatToString(MinTerminalRows),
           "detected terminal size " + SizeText(size.value), ResizeRemediation)
  }

  /** A 79x23 terminal is refused with exit status 12 and a message asking
      for 80 columns and 24 rows. */
  lemma SmallTerminalRefused()
    ensures var r := EnforceTerminalMinimum(Some(TerminalSize(79, 23)));
      r.Err? && ExitCode(r.error.code) == 12
      && Contains(r.error.remediation, "Resize terminal to at least 80 columns and 24 rows")
  {
    assert NatToString(80) == "80" by { assert NatToString(8) == "8"; }
    assert NatToString(24) == "24" by { assert NatToString(2) == "2"; }
    var part := "Resize terminal to at least 80 columns and 24 rows";
    assert ResizeRemediation[0..|part|] == part;
    assert OccursAt(ResizeRemediation, part, 0);
  }

  /** A `u16` read from text as `trim().parse::<u16>().ok()`. */
  function ParseU16(s: string): (r: Option<u16>)
    ensures r.Some? <==> ParseUnsigned(s, U16Bound).Parsed?
  {
    var p := ParseUnsigned(s, U16Bound);
    if p.Parsed? then Some(p.value) else None
  }

  /** COLUMNS and LINES, each trimmed and parsed; both must be present. */
  function SizeFromEnv(columns: Option<string>, lines: Option<string>): (r: Option<TerminalSize>)
    ensures r.Some? <==> (columns.Some? && lines.Some? && ParseU16(Trim(columns.value)).Some?
                          && ParseU16(Trim(lines.value)).Some?)
  {
    if columns.None? || lines.None? then None
    else
      var cols := ParseU16(Trim(columns.value));
      var rows := ParseU16(Trim(lines.value));
      if cols.Some? && rows.Some? then Some(TerminalSize(cols.value, rows.value)) else None
  }

  /** What `stty size` produced: None when it could not be started. */
  datatype SttyOutput = SttyOutput(success: bool, stdout: string)

  /** `stty size` prints rows first and columns second; extra words are
      ignored. */
  function SizeFromStty(output: Option<SttyOutput>): (r: Option<TerminalSize>)
    ensures r.Some? ==> output.Some? && output.value.success
  {
    if output.None? || !output.value.success then None
    else
      var parts := SplitWhitespace(output.value.stdout);
      if |parts| < 2 then None
      else
        var rows := ParseU16(parts[0]);
        var cols := ParseU16(parts[1]);
        if rows.Some? && cols.Some? then Some(TerminalSize(cols.value, rows.value)) else None
  }

  /** `terminal_size`: the environment first, `stty` otherwise. */
  function ProbeTerminalSize(columns: Option<string>, lines: Option<string>, stty: Option<SttyOutput>): (r: Option<TerminalSize>)
    ensures SizeFromEnv(columns, lines).Some? ==> r == SizeFromEnv(columns, lines)
    ensures SizeFromEnv(columns, lines).None? ==> r == SizeFromStty(stty)
  {
    var fromEnv := SizeFromEnv(columns, lines);
    if fromEnv.Some? then fromEnv else SizeFromStty(stty)
  }

  /** Printed sizes read back: COLUMNS=c and LINES=r give c columns and r
      rows. */
  lemma EnvSizeRoundTrip(c: u16, r: u16)
    ensures SizeFromEnv(Some(NatToString(c)), Some(NatToString(r))) == Some(TerminalSize(c, r))
  {
    PrintedU16(c);
    PrintedU16(r);
  }

  /** `stty size` printing "r c" gives c columns and r rows. */
  lemma SttySizeRoundTrip(c: u16, r: u16)
    ensures SizeFromStty(Some(SttyOutput(true, NatToString(r) + " " + NatToString(c) + "\n")))
      == Some(TerminalSize(c, r))
  {
    var rs, cs := NatToString(r), NatToString(c);
    PrintedU16(c);
    PrintedU16(r);
    TwoWords(rs, cs);
    var parts := SplitWhitespace(rs + " " + cs + "\n");
    assert parts[0] == rs && parts[1] == cs;
  }

  lemma PrintedU16(n: u16)
    ensures Trim(NatToString(n)) == NatToString(n)
    ensures NoWhitespace(NatToString(n))
    ensures ParseU16(NatToString(n)) == Some(n)
  {
    var s := NatToString(n);
    DigitsHaveNoWhitespace(s);
    TrimOfWhitespaceFree(s);
    ParseNatToString(n, U16Bound);
  }
}
