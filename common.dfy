/** Small value types shared by every component: optional values, results with the
    exception kinds the source throws, and Roslyn's version stamp. */
module Common {

  datatype Option<+T> = None | Some(value: T)

  /** The exceptions the modelled code throws, by .NET type. */
  datatype Error =
    | ArgumentNull(parameter: string)
    | Argument
    | InvalidOperation
    | NotImplemented
    | KeyNotFound
    | DuplicateKey
    | InvalidCast

  datatype Result<+T> = Success(value: T) | Failure(error: Error) {
    predicate IsFailure() {
      Failure?
    }

    function PropagateFailure<U>(): Result<U>
      requires Failure?
    {
      Failure(error)
    }

    function Extract(): T
      requires Success?
    {
      value
    }
  }

  datatype Outcome = Pass | Fail(error: Error)

  /** Roslyn's VersionStamp, as a logical clock value. */
  type VersionStamp = nat

  /** VersionStamp.Default: smaller than every stamp that Create or GetNewerVersion yields. */
  const DefaultVersion: VersionStamp := 0

  /** VersionStamp.GetNewerVersion: a stamp strictly newer than its argument. */
  function GetNewerVersion(v: VersionStamp): (r: VersionStamp)
    ensures r > v && r > DefaultVersion
  {
    v + 1
  }

  /** string.IsNullOrWhiteSpace for a present string, with char.IsWhiteSpace as a parameter. */
  predicate IsWhiteSpaceOnly(isWhiteSpace: char -> bool, s: string)
  {
    forall i :: 0 <= i < |s| ==> isWhiteSpace(s[i])
  }
}
