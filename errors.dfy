/** The installer's structured error: a stable code, the component that
    raised it, what was expected, what was observed and how to fix it. */
module Errors {
  import opened Types
  import opened Strings

  /** Declared in this order; each variant's discriminant is its position,
      counting from 1. */
  datatype ErrorCode =
    | InvalidTargetDisk
    | MissingTool
    | PlanGeneration
    | MissingConfirmation
    | PartitionApplyFailed
    | FormatFailed
    | MountFailed
    | HandoffFailed
    | JsonSerialize
    | NotImplemented
    | NotRoot
    | Internal

  /** Every variant, in declaration order. */
  const AllCodes: seq<ErrorCode> := [
    InvalidTargetDisk, MissingTool, PlanGeneration, MissingConfirmation,
    PartitionApplyFailed, FormatFailed, MountFailed, HandoffFailed,
    JsonSerialize, NotImplemented, NotRoot, Internal]

  /** The machine-readable code of a variant. */
  function Code(c: ErrorCode): (s: string)
    ensures |s| == 4 && s[..2] == "E0"
  {
    match c
    case InvalidTargetDisk => "E001"
    case MissingTool => "E002"
    case PlanGeneration => "E003"
    case MissingConfirmation => "E004"
    case PartitionApplyFailed => "E005"
    case FormatFailed => "E006"
    case MountFailed => "E007"
    case HandoffFailed => "E008"
    case JsonSerialize => "E009"
    case NotImplemented => "E010"
    case NotRoot => "E011"
    case Internal => "E012"
  }

  /** The process exit status for a variant: its discriminant. */
  function ExitCode(c: ErrorCode): (n: nat)
    ensures 1 <= n <= |AllCodes| && AllCodes[n - 1] == c
  {
    match c
    case InvalidTargetDisk => 1
    case MissingTool => 2
    case PlanGeneration => 3
    case MissingConfirmation => 4
    case PartitionApplyFailed => 5
    case FormatFailed => 6
    case MountFailed => 7
    case HandoffFailed => 8
    case JsonSerialize => 9
    case NotImplemented => 10
    case NotRoot => 11
    case Internal => 12
  }

  /** `n` in decimal, left-padded with zeros to three digits. */
  function ThreeDigits(n: nat): (s: string)
    requires n < 1000
    ensures |s| == 3 && AllDigits(s)
    ensures DigitValue(s[0]) * 100 + DigitValue(s[1]) * 10 + DigitValue(s[2]) == n
  {
    [DigitChar(n / 100), DigitChar(n / 10 % 10), DigitChar(n % 10)]
  }

  /** A code is "E" followed by the exit status in three digits, so that the
      code table and the exit-status table agree. */
  lemma CodeSpellsExitCode(c: ErrorCode)
    ensures Code(c) == "E" + ThreeDigits(ExitCode(c))
  {
  }

  /** Distinct variants have distinct codes. */
  lemma CodeInjective(a: ErrorCode, b: ErrorCode)
    requires Code(a) == Code(b)
    ensures a == b
  {
    CodeSpellsExitCode(a);
    CodeSpellsExitCode(b);
    var ta, tb := ThreeDigits(ExitCode(a)), ThreeDigits(ExitCode(b));
    assert ta == Code(a)[1..] == tb;
    assert ExitCode(a) == ExitCode(b);
  }

  datatype RecpartError = RecpartError(
    code: ErrorCode,
    component: string,
    expectation: string,
    observed: string,
    remediation: string)

  /** The exportable form of an error. */
  function Payload(e: RecpartError): (p: ErrorPayload)
    ensures p.schema_version == 1 && p.code == Code(e.code)
    ensures p.component == e.component && p.expectation == e.expectation
    ensures p.observed == e.observed && p.remediation == e.remediation
  {
    ErrorPayload(ErrorSchemaVersion, Code(e.code), e.component, e.expectation, e.observed, e.remediation)
  }

  /** The variant a code string names, if any. */
  function CodeFromString(s: string): (c: Option<ErrorCode>)
    ensures c.Some? ==> Code(c.value) == s
  {
    if s == "E001" then Some(InvalidTargetDisk)
    else if s == "E002" then Some(MissingTool)
    else if s == "E003" then Some(PlanGeneration)
    else if s == "E004" then Some(MissingConfirmation)
    else if s == "E005" then Some(PartitionApplyFailed)
    else if s == "E006" then Some(FormatFailed)
    else if s == "E007" then Some(MountFailed)
    else if s == "E008" then Some(HandoffFailed)
    else if s == "E009" then Some(JsonSerialize)
    else if s == "E010" then Some(NotImplemented)
    else if s == "E011" then Some(NotRoot)
    else if s == "E012" then Some(Internal)
    else None
  }

  /** An error rebuilt from its payload. */
  function ErrorFromPayload(p: ErrorPayload): (e: Option<RecpartError>)
    ensures e.Some? ==> Code(e.value.code) == p.code
  {
    match CodeFromString(p.code)
    case None => None
    case Some(c) => Some(RecpartError(c, p.component, p.expectation, p.observed, p.remediation))
  }

  /** The payload keeps everything the error carries. */
  lemma PayloadRoundTrip(e: RecpartError)
    ensures ErrorFromPayload(Payload(e)) == Some(e)
  {
  }

  /** `Display` for an error. */
  function ErrorText(e: RecpartError): (s: string)
    ensures |s| >= 7 && s[..4] == Code(e.code) && s[4..7] == ": ["
  {
    Code(e.code) + ": [" + e.component + "] expected " + e.expectation + ", observed "
      + e.observed + ". remediation: " + e.remediation
  }

  /** The result of a fallible step: a value or the error that stopped it. */
  datatype Result<+T> = Ok(value: T) | Err(error: RecpartError) {
    predicate IsFailure() {
      Err?
    }

    function PropagateFailure<U>(): Result<U>
      requires Err?
    {
      Err(error)
    }

    function Extract(): T
      requires Ok?
    {
      value
    }
  }

  /** A failure of the given kind. */
  function Fail<T>(code: ErrorCode, component: string, expectation: string, observed: string,
                   remediation: string): (r: Result<T>)
    ensures r.Err? && r.error.code == code && r.error.component == component
    ensures r.error.expectation == expectation && r.error.observed == observed && r.error.remediation == remediation
  {
    Err(RecpartError(code, component, expectation, observed, remediation))
  }
}
