/** Shared vocabulary of the front end model: optional values, what a failed
    `await` delivers to a `catch`, HTTP methods, JavaScript truthiness of
    strings, and the decimal rendering of numbers that request paths and the
    dashboard date use. */
module Base {

  datatype Option<+T> = None | Some(value: T) {
    /** `a || b` on two optional objects: the first one when present. */
    function OrElse(other: Option<T>): Option<T> {
      if Some? then this else other
    }
  }

  /** What a rejected promise hands to `catch`: an `Error` with its message,
      or some other thrown value. */
  datatype Thrown = ErrorThrown(message: string) | OtherThrown

  /** The settled value of an awaited call. */
  datatype Result<+T> = Ok(value: T) | Err(thrown: Thrown)

  datatype Method = Get | Post | Put | Delete

  /** `error instanceof Error ? error.message : fallback` */
  function InstanceMessage(t: Thrown, fallback: string): string {
    match t
    case ErrorThrown(m) => m
    case OtherThrown => fallback
  }

  /** `err.message || fallback`: an empty message also falls back. */
  function MessageOr(t: Thrown, fallback: string): string {
    match t
    case ErrorThrown(m) => if m != "" then m else fallback
    case OtherThrown => fallback
  }

  /** JavaScript truthiness of an optional string: present and not empty. */
  predicate Truthy(s: Option<string>) {
    s.Some? && s.value != ""
  }

  /** `s.startsWith(prefix)` */
  predicate StartsWith(s: string, prefix: string) {
    |prefix| <= |s| && s[..|prefix|] == prefix
  }

  // ---------------------------------------------------------------------
  // Decimal rendering of integers, as template literals print numbers.
  // ---------------------------------------------------------------------

  predicate IsDigit(c: char) {
    '0' <= c <= '9'
  }

  predicate AllDigits(s: string) {
    forall i :: 0 <= i < |s| ==> IsDigit(s[i])
  }

  function DigitChar(d: nat): (c: char)
    requires d < 10
    ensures IsDigit(c)
  {
    "0123456789"[d]
  }

  function DigitValue(c: char): (d: nat)
    requires IsDigit(c)
    ensures d < 10
  {
    c as int - '0' as int
  }

  /** Decimal digits of `n`, most significant first, without leading zeros. */
  function NatToString(n: nat): (r: string)
    ensures |r| > 0
    ensures AllDigits(r)
    ensures n >= 10 ==> r[0] != '0'
    decreases n
  {
    if n < 10 then [DigitChar(n)] else NatToString(n / 10) + [DigitChar(n % 10)]
  }

  /** The value of a digit string read most significant first. */
  function DigitsValue(s: string): nat
    requires AllDigits(s)
  {
    if |s| == 0 then 0 else DigitsValue(s[..|s| - 1]) * 10 + DigitValue(s[|s| - 1])
  }

  /** `${i}` for an integer-valued number. */
  function IntToString(i: int): string {
    if i < 0 then "-" + NatToString(-i) else NatToString(i)
  }

  /** Reads back what `IntToString` prints: an optional minus sign followed
      by at least one digit. */
  function ParseInt(s: string): Option<int> {
    if |s| > 1 && s[0] == '-' && AllDigits(s[1..]) then Some(0 - DigitsValue(s[1..]))
    else if |s| > 0 && AllDigits(s) then Some(DigitsValue(s))
    else None
  }

  lemma {:induction false} DigitsValueOfNatToString(n: nat)
    ensures DigitsValue(NatToString(n)) == n
    decreases n
  {
    if n >= 10 {
      var p := NatToString(n / 10);
      var r := p + [DigitChar(n % 10)];
      assert r[..|r| - 1] == p;
      DigitsValueOfNatToString(n / 10);
    }
  }

  /** Printing an integer and reading it back gives the integer again. */
  lemma ParseIntRoundTrip(i: int)
    ensures ParseInt(IntToString(i)) == Some(i)
  {
    var s := IntToString(i);
    if i < 0 {
      assert s[1..] == NatToString(-i);
      DigitsValueOfNatToString(-i);
      assert ParseInt(s) == Some(0 - DigitsValue(NatToString(-i)));
    } else {
      assert IsDigit(s[0]);
      DigitsValueOfNatToString(i);
      assert ParseInt(s) == Some(DigitsValue(s));
    }
  }

  /** Distinct integers print differently. */
  lemma IntToStringInjective(a: int, b: int)
    ensures IntToString(a) == IntToString(b) ==> a == b
  {
    ParseIntRoundTrip(a);
    ParseIntRoundTrip(b);
  }

  /** Printed integers contain only digits and a leading minus sign. */
  lemma IntToStringAlphabet(i: int)
    ensures forall k :: 0 <= k < |IntToString(i)| ==> IsDigit(IntToString(i)[k]) || (k == 0 && IntToString(i)[k] == '-')
    ensures |IntToString(i)| > 0
  {
    if i < 0 {
      var s := IntToString(i);
      assert s[1..] == NatToString(-i);
      assert forall k :: 1 <= k < |s| ==> s[k] == NatToString(-i)[k - 1];
    }
  }

  // ---------------------------------------------------------------------
  // Splitting at the first occurrence of a separator character.
  // ---------------------------------------------------------------------

  /** The text before the first `sep` and the text after it, if `sep` occurs. */
  function SplitFirst(s: string, sep: char): (r: Option<(string, string)>)
    ensures r.None? <==> sep !in s
    ensures r.Some? ==> r.value.0 + [sep] + r.value.1 == s && sep !in r.value.0
  {
    if |s| == 0 then None
    else if s[0] == sep then Some(("", s[1..]))
    else match SplitFirst(s[1..], sep)
      case None => None
      case Some(parts) => Some(([s[0]] + parts.0, parts.1))
  }

  /** Joining two pieces with a separator that the first piece does not
      contain can be undone by splitting at the first separator. */
  lemma {:induction false} SplitFirstOfJoin(x: string, sep: char, y: string)
    requires sep !in x
    ensures SplitFirst(x + [sep] + y, sep) == Some((x, y))
    decreases |x|
  {
    if |x| > 0 {
      assert (x + [sep] + y)[1..] == x[1..] + [sep] + y;
      SplitFirstOfJoin(x[1..], sep, y);
      assert [x[0]] + x[1..] == x;
    } else {
      assert x + [sep] + y == [sep] + y;
    }
  }
}
