/** Optional values, results, and the .NET exceptions that the modelled code raises or lets through. */
module Failures {

  /** A reference or string that may be null. */
  datatype Option<+T> = None | Some(value: T)

  /** The outcome of an operation that either returns a value or throws. */
  datatype Result<+T> = Ok(value: T) | Err(error: Exception)

  /** The exception classes that can reach a caller of the modelled code. */
  datatype ExceptionKind =
    | ArgumentNull(paramName: string)     // System.ArgumentNullException
    | Argument(paramName: string)         // System.ArgumentException
    | Format                              // System.FormatException
    | ObjectDisposed(objectName: string)  // System.ObjectDisposedException
    | InvalidOperation                    // System.InvalidOperationException
    | HttpRequest(statusCode: nat)        // System.Net.Http.HttpRequestException from EnsureSuccessStatusCode
    | MissingMethod                       // System.MissingMethodException from Activator.CreateInstance
    | NullReference                       // System.NullReferenceException
    | External                            // raised by code outside the model (credential, network, URI parser)

  /** An exception object: its class and its Message property. */
  datatype Exception = Exception(kind: ExceptionKind, message: string)

  /** `new ArgumentNullException(paramName)`, with the .NET Framework wording of its message. */
  function ArgumentNullException(paramName: string): (e: Exception)
    ensures e.kind == ArgumentNull(paramName)
  {
    Exception(ArgumentNull(paramName), "Value cannot be null.\r\nParameter name: " + paramName)
  }

  /** `new ArgumentException(message, paramName)`. */
  function ArgumentException(message: string, paramName: string): (e: Exception)
    ensures e.kind == Argument(paramName)
  {
    Exception(Argument(paramName), message + "\r\nParameter name: " + paramName)
  }

  /** `new ObjectDisposedException(objectName)`. */
  function ObjectDisposedException(objectName: string): (e: Exception)
    ensures e.kind == ObjectDisposed(objectName)
  {
    Exception(ObjectDisposed(objectName), "Cannot access a disposed object.\r\nObject name: '" + objectName + "'.")
  }

  /** `string.IsNullOrEmpty(s)`. */
  predicate IsNullOrEmpty(s: Option<string>) {
    s.None? || s.value == ""
  }

  /** The number a string of decimal digits denotes. */
  function DigitsValue(s: string): nat
    requires forall i :: 0 <= i < |s| ==> '0' <= s[i] <= '9'
  {
    if s == [] then 0 else 10 * DigitsValue(s[..|s| - 1]) + (s[|s| - 1] as int - '0' as int)
  }

  /**
   * The decimal digits of `n`, as `n.ToString()` writes them: digits only, no leading zero, and
   * they read back as `n`.
   */
  function DecimalString(n: nat): (s: string)
    ensures |s| >= 1 && (s[0] == '0' ==> n == 0)
    ensures forall i :: 0 <= i < |s| ==> '0' <= s[i] <= '9'
    ensures DigitsValue(s) == n
  {
    if n < 10 then [(n as int + '0' as int) as char]
    else
      var prefix := DecimalString(n / 10);
      var s := prefix + [((n % 10) as int + '0' as int) as char];
      assert s[..|s| - 1] == prefix;
      s
  }
}
