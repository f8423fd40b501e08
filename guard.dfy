/**
 * Blank-string checks: the repository's own `Guard.ThrowIfNullOrWhiteSpace` and the framework's
 * `ArgumentException.ThrowIfNullOrWhiteSpace` that the older configuration calls.
 */
module Guard {
  import opened Wrappers
  import opened Errors

  /** The characters the model treats as white space (the ASCII ones). */
  const WhiteSpace: set<char> := {' ', '\t', '\n', '\r', '\U{000B}', '\U{000C}'}

  /** `string.IsNullOrWhiteSpace`: null, empty, or white space only. */
  predicate IsNullOrWhiteSpace(value: Option<string>) {
    value.None? || forall i :: 0 <= i < |value.value| ==> value.value[i] in WhiteSpace
  }

  /** What C# string interpolation prints for a possibly-null string. */
  function Text(value: Option<string>): string {
    value.GetOr("")
  }

  const BlankValueMessage := "The value cannot be an empty string or composed entirely of whitespace."

  /** `Guard.ThrowIfNullOrWhiteSpace`: rejects a value without a single visible character. */
  function ThrowIfNullOrWhiteSpace(value: Option<string>, paramName: string): (r: Outcome<Error>)
    ensures r.Pass? <==> value.Some? && exists i :: 0 <= i < |value.value| && value.value[i] !in WhiteSpace
    ensures r.Fail? ==> r.error == ArgumentError(BlankValueMessage, Some(paramName))
  {
    if IsNullOrWhiteSpace(value) then Fail(ArgumentError(BlankValueMessage, Some(paramName))) else Pass
  }

  /**
   * `ArgumentException.ThrowIfNullOrWhiteSpace` of the framework: the same check, except that a
   * null value raises ArgumentNullException instead of ArgumentException.
   */
  function FrameworkThrowIfNullOrWhiteSpace(value: Option<string>, paramName: string): (r: Outcome<Error>)
    ensures value.None? ==> r == Fail(ArgumentNullError(paramName))
    ensures value.Some? ==> r == ThrowIfNullOrWhiteSpace(value, paramName)
  {
    if value.None? then Fail(ArgumentNullError(paramName)) else ThrowIfNullOrWhiteSpace(value, paramName)
  }

  /** The three kinds of blank value the guard rejects, with its fixed message and the parameter's name. */
  lemma BlankValuesRejected(paramName: string)
    ensures ThrowIfNullOrWhiteSpace(None, paramName) == Fail(ArgumentError(BlankValueMessage, Some(paramName)))
    ensures ThrowIfNullOrWhiteSpace(Some(""), paramName) == Fail(ArgumentError(BlankValueMessage, Some(paramName)))
    ensures ThrowIfNullOrWhiteSpace(Some("   "), paramName) == Fail(ArgumentError(BlankValueMessage, Some(paramName)))
  {
  }
}
