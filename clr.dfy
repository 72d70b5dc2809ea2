/** Notions of the .NET runtime that the modelled C# code relies on: nullable
    values, thrown exceptions and 32-bit integers with their two's-complement
    casts. */
module Clr {

  /** A reference or nullable value: `None` stands for `null`. */
  datatype Option<+T> = None | Some(value: T)

  /** The exception types the modelled code throws or lets escape. */
  datatype Exception =
    | ArgumentNull          // ArgumentNullException
    | ArgumentOutOfRange    // ArgumentOutOfRangeException
    | DuplicateKey          // ArgumentException from Dictionary.Add
    | NullReference         // NullReferenceException
    | InvalidOperation      // InvalidOperationException, e.g. First() of an empty list
    | NotImplemented        // NotImplementedException
    | Raised(message: string)  // `new Exception(message)`

  /** `ex.Message`: the text of a raised exception; the runtime's own
      wording for the others is not modelled, so they read as their type. */
  function ExceptionMessage(e: Exception): string
  {
    match e
    case Raised(message) => message
    case ArgumentNull => "ArgumentNullException"
    case ArgumentOutOfRange => "ArgumentOutOfRangeException"
    case DuplicateKey => "ArgumentException"
    case NullReference => "NullReferenceException"
    case InvalidOperation => "InvalidOperationException"
    case NotImplemented => "NotImplementedException"
  }

  /** The result of a call that either returns a value or throws. */
  datatype Outcome<+T> = Returns(value: T) | Throws(error: Exception)

  const TwoTo31: int := 0x8000_0000
  const TwoTo32: int := 0x1_0000_0000

  /** C# `int`. */
  type Int32 = x: int | -TwoTo31 <= x < TwoTo31

  /** C# `uint`. */
  type UInt32 = x: int | 0 <= x < TwoTo32

  const UIntMaxValue: UInt32 := 0xFFFF_FFFF

  /** The unchecked cast `(int)u`: the same 32 bits read as a signed number. */
  function AsInt32(u: UInt32): (i: Int32)
    ensures i == u || i == u - TwoTo32
    ensures i < 0 <==> u >= TwoTo31
  {
    if u < TwoTo31 then u else u - TwoTo32
  }

  /** The unchecked cast `(uint)i`: the same 32 bits read as an unsigned number. */
  function AsUInt32(i: Int32): (u: UInt32)
    ensures u == i || u == i + TwoTo32
    ensures u >= TwoTo31 <==> i < 0
  {
    if i >= 0 then i else i + TwoTo32
  }

  /** The smaller of two counts. */
  function Min(a: nat, b: nat): nat { if a <= b then a else b }

  predicate IsDigit(c: char) { '0' <= c <= '9' }

  /** `n.ToString()` for a non-negative number: its decimal digits, with no
      leading zero. */
  function Decimal(n: nat): (s: string)
    ensures s != [] && forall i :: 0 <= i < |s| ==> IsDigit(s[i])
    ensures s[0] == '0' ==> n == 0 && s == "0"
  {
    if n < 10 then [(n + '0' as int) as char]
    else Decimal(n / 10) + [(n % 10 + '0' as int) as char]
  }

  /** The number a string of decimal digits denotes. */
  function DecimalValue(s: string): nat
    requires forall i :: 0 <= i < |s| ==> IsDigit(s[i])
  {
    if s == [] then 0
    else
      assert IsDigit(s[|s| - 1]);
      10 * DecimalValue(s[..|s| - 1]) + (s[|s| - 1] as int - '0' as int)
  }

  /** Reading back the printed digits gives the number. */
  lemma {:induction false} DecimalRoundTrip(n: nat)
    ensures DecimalValue(Decimal(n)) == n
  {
    if n >= 10 {
      DecimalRoundTrip(n / 10);
      assert Decimal(n)[..|Decimal(n)| - 1] == Decimal(n / 10);
    }
  }

  /** Different numbers print differently. */
  lemma DecimalInjective(m: nat, n: nat)
    ensures Decimal(m) == Decimal(n) ==> m == n
  {
    DecimalRoundTrip(m);
    DecimalRoundTrip(n);
  }

  /** The two casts are inverse bijections between `int` and `uint`. */
  lemma CastsAreInverse(i: Int32, u: UInt32)
    ensures AsUInt32(AsInt32(u)) == u
    ensures AsInt32(AsUInt32(i)) == i
    ensures AsUInt32(i) == u <==> AsInt32(u) == i
  {
  }
}
