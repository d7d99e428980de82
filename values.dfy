/** The values a caller may pass as log arguments, as a closed variant in
    place of Go's `interface{}` and its runtime type switch, together with
    the numeric renderings that the formatters use and the foreign library
    behaviour (printf expansion, "%s" on non-strings, JSON encoding) that the
    model keeps abstract. */
module Values {
  import opened GoStrings

  /** A log argument. Signed and unsigned integers of every Go width carry
      their value (assumed to fit the Go type); `Hex`, `Octal` and `Binary`
      are the hclog wrapper types over Go `int`; `Format` is hclog.Format, a
      slice holding a printf template and its arguments; `Other` is any value
      with no dedicated case, carrying its "%v" text. */
  datatype Value =
    | Str(s: string)
    | Int(i: int)
    | Uint(u: nat)
    | Hex(h: int)
    | Octal(o: int)
    | Binary(b: int)
    | Format(template: string, fargs: seq<Value>)
    | Slice(elems: seq<Value>)
    | Stacktrace(trace: string)
    | Err(message: string, marshaler: bool)
    | Nil
    | Other(text: string)

  datatype Option<T> = None | Some(value: T)

  /** The key hclog gives a dangling last argument (intlogger.go). */
  const MissingKey: string := "EXTRA_VALUE_AT_END"

  /** What json.Encoder.Encode reports: the encoded text, an
      *json.UnsupportedTypeError, or any other error. */
  datatype Encoded = Encoded(text: string) | UnsupportedType | EncodeFailed

  /** Library behaviour the model does not interpret. */
  datatype Printer = Printer(
    sprintf: (string, seq<Value>) -> string,   // fmt.Sprintf(template, args...)
    sprintS: Value -> string,                  // fmt.Sprintf("%s", v) for a non-string v
    encode: map<string, Value> -> Encoded)     // json.NewEncoder(buf).Encode(m)

  /** A point in time, seen only through time.Time.Format(layout). */
  datatype Moment = Moment(format: string -> string)

  /** What runtime.Caller reports when it finds the frame. */
  datatype CallSite = CallSite(file: string, line: int)

  /** The characters strings.ContainsAny(val, " \t\n\r") looks for. */
  predicate IsQuoteSpace(c: char) {
    c == ' ' || c == '\t' || c == '\n' || c == '\r'
  }

  predicate HasQuoteSpace(s: string) {
    exists i :: 0 <= i < |s| && IsQuoteSpace(s[i])
  }

  /** A value wrapped in double quotes exactly when asked to. */
  function QuoteIf(quote: bool, val: string): string {
    if quote then "\"" + val + "\"" else val
  }

  // ---- Base-N digits (strconv.FormatUint / FormatInt) ----

  function DigitChar(d: nat): (c: char)
    requires d < 16
  {
    if d < 10 then ('0' as int + d) as char else ('a' as int + d - 10) as char
  }

  /** The numeric value of a digit character, or 16 for a non-digit. */
  function DigitValue(c: char): (d: nat)
    ensures d <= 16
  {
    if '0' <= c <= '9' then c as int - '0' as int
    else if 'a' <= c <= 'f' then c as int - 'a' as int + 10
    else 16
  }

  /** strconv.FormatUint(n, base) for base 2..16: lower-case digits, most
      significant first. */
  function Digits(n: nat, base: nat): string
    requires 2 <= base <= 16
    decreases n
  {
    if n < base then [DigitChar(n)]
    else
      DivModBase(n, base);
      Digits(n / base, base) + [DigitChar(n % base)]
  }

  /** Digits writes at least one digit, every character is a digit of the
      base, and a positive number has no leading zero. */
  lemma {:induction false} DigitsShape(n: nat, base: nat)
    requires 2 <= base <= 16
    ensures var r := Digits(n, base);
            |r| > 0 && (forall i :: 0 <= i < |r| ==> DigitValue(r[i]) < base)
            && (n > 0 ==> DigitValue(r[0]) != 0)
    decreases n
  {
    if n < base {
      DigitCharValue(n);
    } else {
      DivModBase(n, base);
      DigitsShape(n / base, base);
      DigitCharValue(n % base);
    }
  }

  lemma DivModBase(n: nat, base: nat)
    requires 2 <= base <= 16 && n >= base
    ensures 0 < n / base < n && 0 <= n % base < base
    ensures n == n / base * base + n % base
  {
  }

  /** Reads a digit string back (the inverse direction, strconv.ParseUint). */
  function DigitsValue(s: string, base: nat): nat
    requires 2 <= base <= 16
  {
    if |s| == 0 then 0
    else DigitsValue(s[..|s| - 1], base) * base + (var d := DigitValue(s[|s| - 1]); if d < base then d else 0)
  }

  lemma DigitCharValue(d: nat)
    requires d < 16
    ensures DigitValue(DigitChar(d)) == d
  {
  }

  lemma DigitsValueSnoc(prefix: string, d: nat, base: nat)
    requires 2 <= base <= 16 && d < base
    ensures DigitsValue(prefix + [DigitChar(d)], base) == DigitsValue(prefix, base) * base + d
  {
    var s := prefix + [DigitChar(d)];
    assert s[..|s| - 1] == prefix;
    DigitCharValue(d);
  }

  /** Rendering a number in any base 2..16 loses nothing: reading the digits
      back gives the number. */
  lemma {:induction false} DigitsRoundTrip(n: nat, base: nat)
    requires 2 <= base <= 16
    ensures DigitsValue(Digits(n, base), base) == n
    decreases n
  {
    if n < base {
      DigitsValueSnoc([], n, base);
      assert Digits(n, base) == [] + [DigitChar(n)];
    } else {
      DivModBase(n, base);
      var q, d := n / base, n % base;
      DigitsRoundTrip(q, base);
      DigitsValueSnoc(Digits(q, base), d, base);
      assert Digits(n, base) == Digits(q, base) + [DigitChar(d)];
    }
  }

  /** strconv.FormatInt(i, 10) */
  function Decimal(i: int): string {
    if i < 0 then "-" + Digits(-i, 10) else Digits(i, 10)
  }

  const TwoTo64: int := 0x1_0000_0000_0000_0000

  /** The Go conversion uint64(n) of a 64-bit signed n: wraps modulo 2^64. */
  function ToUint64(n: int): nat {
    n % TwoTo64
  }

  /** uint64(n) keeps a non-negative n and adds 2^64 to a negative one. */
  lemma ToUint64Range(n: int)
    ensures 0 <= ToUint64(n) < TwoTo64
    ensures -(TwoTo64 / 2) <= n < 0 ==> ToUint64(n) == n + TwoTo64
    ensures 0 <= n < TwoTo64 ==> ToUint64(n) == n
  {
  }

  // ---- fmt.Sprintf("%v", v) ----

  /** The "%v" rendering of a value: strings as they are, integers in decimal
      (the Hex, Octal and Binary wrappers have no String method, so they print
      in decimal too), slices as "[e1 e2 ...]", errors as Error(), nil as
      "<nil>". */
  function PercentV(v: Value): string
    decreases v
  {
    match v
    case Str(s) => s
    case Int(i) => Decimal(i)
    case Uint(u) => Digits(u, 10)
    case Hex(h) => Decimal(h)
    case Octal(o) => Decimal(o)
    case Binary(b) => Decimal(b)
    case Format(t, fargs) => "[" + t + (if |fargs| == 0 then "" else " " + PercentVList(fargs)) + "]"
    case Slice(elems) => "[" + PercentVList(elems) + "]"
    case Stacktrace(t) => t
    case Err(m, _) => m
    case Nil => "<nil>"
    case Other(t) => t
  }

  function PercentVList(vs: seq<Value>): string
    decreases vs
  {
    if |vs| == 0 then ""
    else if |vs| == 1 then PercentV(vs[0])
    else PercentV(vs[0]) + " " + PercentVList(vs[1..])
  }

  /** The text of a key: a string key as it is, anything else through "%s". */
  function KeyText(p: Printer, k: Value): string {
    if k.Str? then k.s else p.sprintS(k)
  }
}
