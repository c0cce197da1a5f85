/**
 * Shared vocabulary of the wrapper: fixed-width integers, the error kinds every
 * operation can report, Option/Result, and the conversion of a Rust string into a
 * NUL-terminated C string.
 */
module Common {

  /** Fixed-width unsigned integers of the Rust side. */
  type u8 = x: int | 0 <= x < 0x100
  type u32 = x: int | 0 <= x < 0x1_0000_0000
  type u64 = x: int | 0 <= x < 0x1_0000_0000_0000_0000
  type i32 = x: int | -0x8000_0000 <= x < 0x8000_0000

  const TWO_POW_32: int := 0x1_0000_0000

  /** The two error kinds the wrapper reports. */
  datatype ErrorCode =
    | CompilationError(message: string)
    | Unhandled

  datatype Option<+T> = None | Some(value: T)

  datatype Result<+T> = Ok(value: T) | Err(error: ErrorCode) {
    predicate IsFailure() { Err? }
    function PropagateFailure<U>(): Result<U>
      requires Err?
    {
      Err(error)
    }
    function Extract(): T
      requires Ok?
    {
      value
    }
  }

  /** Outcome of an operation that returns nothing on success (`Result<(), ErrorCode>`). */
  datatype Outcome = Pass | Fail(error: ErrorCode) {
    predicate IsFailure() { Fail? }
    function PropagateFailure<U>(): Result<U>
      requires Fail?
    {
      Err(error)
    }
  }

  /** A string that has been accepted as a C string: it holds no NUL character. */
  datatype CString = CString(text: string)

  /**
   * `CString::new`: a Rust string becomes a C string unless it contains an interior
   * NUL, in which case the conversion fails.
   */
  function ToCString(s: string): (r: Option<CString>)
    ensures r.Some? <==> (forall i :: 0 <= i < |s| ==> s[i] != '\0')
    ensures r.Some? ==> r.value.text == s
  {
    if '\0' in s then None else Some(CString(s))
  }

  /** True when the string can cross the boundary as a C string. */
  predicate Encodable(s: string) {
    '\0' !in s
  }
}
