/** Option, used for lookups that may find nothing and JavaScript coercions that may give NaN. */
module Wrappers {
  datatype Option<+T> = None | Some(value: T)
}

/**
 * The loosely-typed cell values a spreadsheet record delivers to the widgets, and the
 * three JavaScript coercions the form-fill pass applies to them: truthiness (`if (value)`),
 * `String(value)` and `Number(value)`.
 */
module Values {
  import opened Wrappers

  type Day = n: int | 1 <= n <= 31 witness 1
  type Month = n: int | 1 <= n <= 12 witness 1
  type Hour = n: int | 0 <= n <= 23
  type Minute = n: int | 0 <= n <= 59

  /** The local calendar components of a JavaScript Date, as the fr-FR formatters see them. */
  datatype DateParts = DateParts(day: Day, month: Month, year: nat, hour: Hour, minute: Minute)

  /**
   * A cell value. `DateV` carries, besides its local components, the text `String(date)`
   * gives for it (that text depends on the time zone, so it is taken as given).
   * `Undefined` is what a lookup of a missing property yields.
   */
  datatype RawValue =
    | Str(s: string)
    | Num(n: int)
    | Bool(b: bool)
    | DateV(parts: DateParts, shown: string)
    | List(ids: seq<int>)
    | Null
    | Undefined

  /** JavaScript truthiness: "", 0, false, null and undefined are falsy; objects and arrays are truthy. */
  function Truthy(v: RawValue): (r: bool)
    ensures !r <==> v in {Str(""), Num(0), Bool(false), Null, Undefined}
  {
    match v
    case Str(s) => s != ""
    case Num(n) => n != 0
    case Bool(b) => b
    case DateV(_, _) => true
    case List(_) => true
    case Null => false
    case Undefined => false
  }

  predicate IsDigit(c: char)
  {
    '0' <= c <= '9'
  }

  predicate AllDigits(s: string)
  {
    forall i :: 0 <= i < |s| ==> IsDigit(s[i])
  }

  function DigitChar(d: int): (c: char)
    requires 0 <= d <= 9
    ensures IsDigit(c) && DigitValue(c) == d
  {
    (48 + d) as char
  }

  function DigitValue(c: char): int
    requires IsDigit(c)
  {
    c as int - 48
  }

  /** The number a string of decimal digits denotes (leading zeros allowed); the parser partner of NatToDecimal. */
  function DecimalValue(s: string): nat
    requires AllDigits(s)
  {
    if |s| == 0 then 0 else 10 * DecimalValue(s[..|s| - 1]) + DigitValue(s[|s| - 1])
  }

  /** Shortest decimal rendering of a natural number, as JavaScript prints an integer below 10^21. */
  function NatToDecimal(n: nat): (r: string)
    ensures |r| >= 1 && AllDigits(r)
    ensures r[0] == '0' ==> n == 0 && |r| == 1
    ensures DecimalValue(r) == n
    decreases n
  {
    if n < 10 then [DigitChar(n)]
    else
      var r := NatToDecimal(n / 10) + [DigitChar(n % 10)];
      assert r[..|r| - 1] == NatToDecimal(n / 10);
      r
  }

  /** `String(n)` for an integer-valued number. */
  function IntToString(n: int): string
  {
    if n < 0 then "-" + NatToDecimal(-n) else NatToDecimal(n)
  }

  /** Reads an optionally negative decimal integer; None for anything else. */
  function ParseInt(s: string): Option<int>
  {
    if |s| >= 2 && s[0] == '-' && AllDigits(s[1..]) then Some(0 - DecimalValue(s[1..]) as int)
    else if |s| >= 1 && AllDigits(s) then Some(DecimalValue(s))
    else None
  }

  lemma IntToStringRoundTrip(n: int)
    ensures ParseInt(IntToString(n)) == Some(n)
  {
    if n < 0 {
      var t := NatToDecimal(-n);
      assert ("-" + t)[1..] == t;
    }
  }

  /** The ids of a list joined by commas, as `String(array)` prints them. */
  function JoinIds(ids: seq<int>): string
  {
    if |ids| == 0 then ""
    else if |ids| == 1 then IntToString(ids[0])
    else IntToString(ids[0]) + "," + JoinIds(ids[1..])
  }

  /**
   * JavaScript `String(value)`: a string is itself, a number's text reads back as that
   * number, and the constants print their names.
   */
  function ToText(v: RawValue): (r: string)
    ensures v.Str? ==> r == v.s
    ensures v.Num? ==> ParseInt(r) == Some(v.n)
    ensures v.Bool? ==> r == (if v.b then "true" else "false")
    ensures v == Null ==> r == "null"
    ensures v == Undefined ==> r == "undefined"
  {
    match v
    case Str(s) => s
    case Num(n) => IntToStringRoundTrip(n); IntToString(n)
    case Bool(b) => if b then "true" else "false"
    case DateV(_, shown) => shown
    case List(ids) => JoinIds(ids)
    case Null => "null"
    case Undefined => "undefined"
  }

  /**
   * JavaScript `Number(value)` restricted to integers; None stands for NaN.
   * A one-element array converts through its element, an empty one to 0.
   */
  function ToNumber(v: RawValue): (r: Option<int>)
    ensures v.Num? ==> r == Some(v.n)
    ensures v.Bool? ==> r == Some(if v.b then 1 else 0)
    ensures v == Null || v == Str("") || v == List([]) ==> r == Some(0)
    ensures v == Undefined || v.DateV? ==> r.None?
    ensures v.List? && |v.ids| == 1 ==> r == Some(v.ids[0])
    ensures v.List? && |v.ids| > 1 ==> r.None?
  {
    match v
    case Str(s) => if s == "" then Some(0) else ParseInt(s)
    case Num(n) => Some(n)
    case Bool(b) => Some(if b then 1 else 0)
    case DateV(_, _) => None
    case List(ids) => if |ids| == 0 then Some(0) else if |ids| == 1 then Some(ids[0]) else None
    case Null => Some(0)
    case Undefined => None
  }

  /** `Number(String(n))` gives back n: the id a record stores as text converts to the same number. */
  lemma NumberOfTextRoundTrip(n: int)
    ensures ToNumber(Str(IntToString(n))) == Some(n)
  {
    IntToStringRoundTrip(n);
  }
}
