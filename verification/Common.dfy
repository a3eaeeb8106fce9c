/** Failure-compatible datatypes shared by every module, and the closed vocabulary of
    diagnostic codes that the authority checkpoint and the action queue raise. */
module Common {

  datatype Option<+T> = None | Some(value: T)

  /** AuthorityBindingError.STABLE_CODES, plus the two plain Python errors that the
      modelled code lets escape. */
  datatype Code =
    | CharterBinding | DecisionBinding | MissionBinding
    | ProviderMismatch | ModelMismatch | StrategyMismatch | SourceMismatch
    | CapabilityBinding | ConstraintViolation | SkillForbidden
    | ReceiptMissing | ReceiptInvalid | CharterImmutable | DecisionImmutable
    | ArgumentsHash | ApprovalBinding | MigrationRequired
    | ClaimMissing | ClaimInvalid | AlreadyClaimed | ClaimBinding
    | LockTimeout | StillActive
    | KeyMissing | ValueInvalid

  datatype Result<+T> = Ok(value: T) | Err(code: Code) {
    predicate IsFailure() { Err? }
    function PropagateFailure<U>(): Result<U>
      requires Err?
    {
      Err(code)
    }
    function Extract(): T
      requires Ok?
    {
      value
    }
  }

  datatype Check = Pass | Fail(code: Code) {
    predicate IsFailure() { Fail? }
    function PropagateFailure(): Check
      requires Fail?
    {
      this
    }
  }

  /** A guard inside a function that answers a Check. */
  function Require(condition: bool, code: Code): Check {
    if condition then Pass else Fail(code)
  }

  datatype Guard = Clear | Stop(code: Code) {
    predicate IsFailure() { Stop? }
    function PropagateFailure<U>(): Result<U>
      requires Stop?
    {
      Err(code)
    }
  }

  /** A guard inside a function that answers a Result. */
  function Need(condition: bool, code: Code): Guard {
    if condition then Clear else Stop(code)
  }

  function Ensure(check: Check): Guard {
    match check
    case Pass => Clear
    case Fail(code) => Stop(code)
  }

  /** What one read of a JSON file yields: nothing there, bytes that are not the closed
      object the reader expects (torn, unparsable, wrong keys or types), a document at
      another schema_version, or a document. */
  datatype File<+T> = Missing | Malformed | OldSchema | Doc(value: T)

  predicate Distinct<T(==)>(xs: seq<T>) {
    forall i, j :: 0 <= i < j < |xs| ==> xs[i] != xs[j]
  }
}
