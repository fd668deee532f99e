/** Values shared by every part of the shop model: optional values, the error a
    request can end with, and the few string operations Java gives the services
    (string concatenation of numbers and of null, case-insensitive comparison). */
module Common {

  datatype Option<+T> = None | Some(value: T)

  /** The HTTP statuses a `BusinessException` is raised with. */
  datatype HttpStatus = NOT_FOUND | CONFLICT | UNAUTHORIZED | INTERNAL_SERVER_ERROR

  /** Every exception a modelled operation can end with. */
  datatype Failure =
    | Business(message: string, status: HttpStatus)   // BusinessException
    | EntityNotFound(message: string)                 // jakarta.persistence.EntityNotFoundException
    | IllegalArgument(message: string)                // IllegalArgumentException
    | UsernameNotFound(message: string)               // UsernameNotFoundException
    | IntegrityViolation                              // DataIntegrityViolationException raised by the database
    | StoreError(message: string)                     // any other runtime exception raised by the database

  /** The outcome of an operation that returns a value. */
  datatype Result<+T> = Ok(value: T) | Err(failure: Failure)

  /** The outcome of an operation that returns nothing (`void`). */
  datatype Outcome = Pass | Fail(failure: Failure)

  /** The decimal digits of `n`, as `String.valueOf` writes a non-negative `long`. */
  function NatToString(n: nat): (s: string)
    ensures |s| > 0
    ensures forall i :: 0 <= i < |s| ==> '0' <= s[i] <= '9'
    ensures n < 10 ==> s == [Digit(n)]
  {
    if n < 10 then [Digit(n)] else NatToString(n / 10) + [Digit(n % 10)]
  }

  function Digit(d: nat): (c: char)
    requires d < 10
    ensures '0' <= c <= '9'
  {
    "0123456789"[d]
  }

  /** The number a string of decimal digits denotes, most significant digit first. */
  function DecimalValue(s: string): nat
    requires forall i :: 0 <= i < |s| ==> '0' <= s[i] <= '9'
  {
    if s == [] then 0 else DecimalValue(s[..|s| - 1]) * 10 + (s[|s| - 1] as int - '0' as int)
  }

  /** The digits written for `n` denote `n`, so different ids give different messages. */
  lemma {:induction false} NatToStringValue(n: nat)
    ensures DecimalValue(NatToString(n)) == n
  {
    if n >= 10 {
      var s := NatToString(n);
      NatToStringValue(n / 10);
      assert s[..|s| - 1] == NatToString(n / 10);
      assert s[|s| - 1] == Digit(n % 10);
    }
  }

  /** Java's `"..." + s` when `s` may be null: null is written as "null". */
  function JavaString(s: Option<string>): string
  {
    match s
    case None => "null"
    case Some(v) => v
  }

  /** `"..." + id` for an id that may be null. */
  function JavaId(id: Option<nat>): string
  {
    match id
    case None => "null"
    case Some(v) => NatToString(v)
  }

  function UpperAscii(c: char): char
  {
    if 'a' <= c <= 'z' then (c as int - 32) as char else c
  }

  function LowerAscii(c: char): char
  {
    if 'A' <= c <= 'Z' then (c as int + 32) as char else c
  }

  /** Character comparison of `String.equalsIgnoreCase`, restricted to ASCII case mapping. */
  predicate CharEqualsIgnoreCase(a: char, b: char)
  {
    a == b || UpperAscii(a) == UpperAscii(b) || LowerAscii(a) == LowerAscii(b)
  }

  /** `String.equalsIgnoreCase` on two non-null strings. */
  predicate EqualsIgnoreCase(a: string, b: string)
  {
    |a| == |b| && forall i :: 0 <= i < |a| ==> CharEqualsIgnoreCase(a[i], b[i])
  }

  lemma EqualsIgnoreCaseSymmetric(a: string, b: string)
    ensures EqualsIgnoreCase(a, b) <==> EqualsIgnoreCase(b, a)
  {
  }
}
