/** Values shared by every part of the engine: optional values, the three states
    of a stored key, timestamps, decimal rendering and JavaScript's `slice`. */
module Common {

  datatype Option<+T> = None | Some(value: T) {
    function GetOr(default: T): T {
      match this
      case Some(v) => v
      case None => default
    }
  }

  /** The outcome of an operation that may throw: its value, or the message of
      the error it throws. */
  datatype Result<+T> = Success(value: T) | Failure(error: string)

  /** What the host's key-value storage gives back for one key once decoded:
      nothing (`null`, or the falsy empty string), a non-empty string that does
      not decode, or a decoded value. */
  datatype Slot<+T> = Missing | Unreadable | Holds(value: T)

  /** Milliseconds since the epoch, as `Date.now()` returns them. */
  type Time = int

  /** Length of a day in milliseconds (`1000 * 3600 * 24`). */
  const DAY_MS: int := 86_400_000

  function Min(a: int, b: int): int { if a <= b then a else b }
  function Max(a: int, b: int): int { if a >= b then a else b }

  /** JavaScript truthiness of an optional number: absent and zero are falsy. */
  predicate Truthy(n: Option<int>) {
    n.Some? && n.value != 0
  }

  // ---------------------------------------------------------------------------
  // Decimal rendering, as template literals and `toString()` print integers.

  function DigitChar(d: int): (c: char)
    requires 0 <= d < 10
    ensures '0' <= c <= '9' && c as int - '0' as int == d
  {
    (d + '0' as int) as char
  }

  predicate IsDigits(s: string) {
    forall i :: 0 <= i < |s| ==> '0' <= s[i] <= '9'
  }

  function NatToDecimal(n: nat): (s: string)
    ensures |s| >= 1 && IsDigits(s)
    ensures s[0] != '0' || n == 0
    decreases n
  {
    if n < 10 then [DigitChar(n)] else NatToDecimal(n / 10) + [DigitChar(n % 10)]
  }

  /** The value a string of decimal digits denotes (what `parseInt(s, 10)` reads). */
  function DecimalValue(s: string): nat
    requires IsDigits(s)
  {
    if s == [] then 0
    else DecimalValue(s[..|s| - 1]) * 10 + (s[|s| - 1] as int - '0' as int)
  }

  /** Reading back a rendered number gives the number. */
  lemma {:induction false} DecimalRoundTrip(n: nat)
    ensures DecimalValue(NatToDecimal(n)) == n
  {
    if n >= 10 {
      var s := NatToDecimal(n);
      assert s[..|s| - 1] == NatToDecimal(n / 10);
      DecimalRoundTrip(n / 10);
    }
  }

  /** Distinct numbers render as distinct strings. */
  lemma DecimalInjective(m: nat, n: nat)
    requires NatToDecimal(m) == NatToDecimal(n)
    ensures m == n
  {
    DecimalRoundTrip(m);
    DecimalRoundTrip(n);
  }

  function IntToDecimal(n: int): string {
    if n < 0 then "-" + NatToDecimal(-n) else NatToDecimal(n)
  }

  // ---------------------------------------------------------------------------
  // Array.prototype.slice(start, end): negative positions count from the end,
  // every position is clamped into [0, |s|], and an empty range gives [].

  function SlicePosition(x: int, len: nat): (p: nat)
    ensures p <= len
    ensures 0 <= x ==> p == Min(x, len)
    ensures x < 0 ==> p == Max(len + x, 0)
  {
    if x < 0 then (if len + x < 0 then 0 else len + x) else (if x < len then x else len)
  }

  function JsSlice<T>(s: seq<T>, start: int, end: int): (r: seq<T>)
    ensures |r| <= |s|
    ensures forall x :: x in r ==> x in s
  {
    var a := SlicePosition(start, |s|);
    var b := SlicePosition(end, |s|);
    if a < b then s[a..b] else []
  }

  /** `slice(start)` with no end. */
  function JsSliceFrom<T>(s: seq<T>, start: int): (r: seq<T>)
    ensures |r| <= |s|
  {
    JsSlice(s, start, |s|)
  }

  /** For non-negative bounds, slice is the clamped subsequence. */
  lemma SliceNonNegative<T>(s: seq<T>, start: nat, end: nat)
    requires start <= end
    ensures JsSlice(s, start, end) == s[Min(start, |s|)..Min(end, |s|)]
  {
  }
}
