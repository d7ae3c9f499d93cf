/** Values shared by every part of the model: optional values, the errors
    the remote services and the plugin raise, and results that carry them. */
module Common {

  datatype Option<+T> = None | Some(value: T)

  /** The failures the model distinguishes. */
  datatype Error =
    | NotFoundException                 // the remote service reports a missing resource
    | ConflictException                 // the remote service refuses a duplicate link or stage
    | BadRequestException               // the remote service refuses a malformed request
    | ServiceError(code: string)        // any other remote failure (throttling, permissions, ...)
    | DecryptionFailed(reason: string)  // the key-management service could not decrypt a value
    | ReferenceError(identifier: string) // JavaScript: an undeclared identifier was evaluated
    | TypeError(reason: string)         // JavaScript: iterating over `undefined`

  datatype Result<+T> = Ok(value: T) | Err(error: Error)

  /** A call that returns nothing but may fail. */
  datatype Outcome = Pass | Fail(error: Error)

  /** JavaScript truthiness of an optional string: absent and "" are both falsy. */
  predicate HasText(s: Option<string>)
  {
    s.Some? && s.value != ""
  }

  /** The index of the first occurrence of `c` in `s`, as JavaScript's
      `indexOf` finds it, or None when `c` does not occur. */
  function IndexOf(s: string, c: char): (r: Option<nat>)
    ensures r.Some? ==> r.value < |s| && s[r.value] == c && c !in s[..r.value]
    ensures r.None? <==> c !in s
    decreases |s|
  {
    if s == [] then None
    else if s[0] == c then Some(0)
    else match IndexOf(s[1..], c)
      case None => None
      case Some(i) => assert s[..i + 1] == [s[0]] + s[1..][..i]; Some(i + 1)
  }
}
