/** The JavaScript number conversions the pages use on text: `String(n)` for an
    integer, `Number(s)` (ids read back from a query parameter) and
    `parseInt(s)` (route ids and the parameter-count input). Floating point is
    not modelled: a conversion whose JavaScript result is not an integer is
    reported as `Unparsed`. */
module Numbers {
  import opened Text

  /** A JavaScript number as far as this model computes it. */
  datatype Num = Int(value: int) | NaN | Unparsed(text: string)

  predicate IsDecimalDigit(c: char) { '0' <= c <= '9' }

  predicate IsHexDigit(c: char) {
    IsDecimalDigit(c) || 'a' <= c <= 'f' || 'A' <= c <= 'F'
  }

  predicate IsDigitOf(c: char, hex: bool) {
    if hex then IsHexDigit(c) else IsDecimalDigit(c)
  }

  predicate AllDigitsOf(s: string, hex: bool) {
    forall i :: 0 <= i < |s| ==> IsDigitOf(s[i], hex)
  }

  function DigitOf(c: char): (d: nat)
    requires IsHexDigit(c)
    ensures d < 16
    ensures IsDecimalDigit(c) ==> d < 10
  {
    if IsDecimalDigit(c) then c as int - '0' as int
    else if 'a' <= c <= 'f' then c as int - 'a' as int + 10
    else c as int - 'A' as int + 10
  }

  /** The value of a run of digits, most significant first. */
  function ValueOf(s: string, hex: bool): nat
    requires AllDigitsOf(s, hex)
  {
    if s == [] then 0
    else ValueOf(s[..|s| - 1], hex) * (if hex then 16 else 10) + DigitOf(s[|s| - 1])
  }

  /** The length of the longest prefix of `s` made of digits. */
  function DigitRun(s: string, hex: bool): (n: nat)
    ensures n <= |s|
    ensures forall i :: 0 <= i < n ==> IsDigitOf(s[i], hex)
    ensures n < |s| ==> !IsDigitOf(s[n], hex)
  {
    if s == [] || !IsDigitOf(s[0], hex) then 0 else 1 + DigitRun(s[1..], hex)
  }

  function DecimalChar(d: nat): (c: char)
    requires d < 10
    ensures IsDecimalDigit(c) && DigitOf(c) == d
  {
    ('0' as int + d) as char
  }

  /** `String(n)` for a natural number: its decimal digits, without leading
      zeros, and they read back as `n`. */
  function NatToString(n: nat): (r: string)
    ensures |r| >= 1 && AllDigitsOf(r, false)
    ensures ValueOf(r, false) == n
    ensures r[0] == '0' ==> r == "0"
  {
    if n < 10 then [DecimalChar(n)]
    else
      var p := NatToString(n / 10);
      var r := p + [DecimalChar(n % 10)];
      assert r[..|r| - 1] == p;
      r
  }

  /** `String(v)` for an integer. */
  function IntToString(v: int): string {
    if v < 0 then "-" + NatToString(-v) else NatToString(v)
  }

  /** `parseInt(s)` with no radix: leading spaces are skipped, one sign is
      accepted, a `0x` or `0X` prefix switches to hexadecimal, and the longest
      run of digits that follows is read; with no digits the result is NaN. */
  function ParseInt(s: string): (r: Num)
    ensures r.Int? || r.NaN?
  {
    var t := TrimStart(s);
    if |t| > 0 && t[0] == '-' then Negate(ParseUnsigned(t[1..]))
    else if |t| > 0 && t[0] == '+' then ParseUnsigned(t[1..])
    else ParseUnsigned(t)
  }

  function Negate(n: Num): Num {
    if n.Int? then Int(-n.value) else n
  }

  /** The digits after the sign: hexadecimal after a `0x` prefix, decimal
      otherwise, NaN when no digit follows. */
  function ParseUnsigned(u: string): (r: Num)
    ensures r.Int? || r.NaN?
  {
    var hex := |u| >= 2 && u[0] == '0' && (u[1] == 'x' || u[1] == 'X');
    var digits := if hex then u[2..] else u;
    var n := DigitRun(digits, hex);
    if n == 0 then NaN else Int(ValueOf(digits[..n], hex))
  }

  /** `Number(s)` on text: surrounding spaces are ignored, blank text is 0, and
      an optionally signed run of decimal digits is read as an integer. Any
      other text (a fraction, an exponent, a hexadecimal literal, "Infinity",
      or something that gives NaN) is left `Unparsed`. */
  function NumberOf(s: string): (r: Num)
    ensures r.Int? || r.Unparsed?
    ensures AllSpace(s) ==> r == Int(0)
  {
    var t := Trim(s);
    if t == "" then Int(0)
    else
      var negative := t[0] == '-';
      var digits := if t[0] == '-' || t[0] == '+' then t[1..] else t;
      if digits != "" && AllDigitsOf(digits, false) then
        var v: int := ValueOf(digits, false);
        Int(if negative then -v else v)
      else Unparsed(t)
  }

  lemma {:induction false} DigitRunAll(s: string, hex: bool)
    requires AllDigitsOf(s, hex)
    ensures DigitRun(s, hex) == |s|
    decreases |s|
  {
    if s != [] {
      DigitRunAll(s[1..], hex);
    }
  }

  lemma DigitNotSpace(c: char)
    requires IsDecimalDigit(c) || c == '-'
    ensures !IsSpace(c)
  {
  }

  /** `parseInt` of canonical decimal digits after the sign. */
  lemma ParseUnsignedDecimal(u: string)
    requires |u| >= 1 && AllDigitsOf(u, false)
    requires u[0] == '0' ==> |u| == 1
    ensures ParseUnsigned(u) == Int(ValueOf(u, false))
  {
    assert !(|u| >= 2 && u[0] == '0');
    DigitRunAll(u, false);
    assert u[..|u|] == u;
  }

  /** Reading back what `String(v)` renders with `parseInt` gives `v`. */
  lemma ParseIntString(v: int)
    ensures ParseInt(IntToString(v)) == Int(v)
  {
    var m: nat := if v < 0 then -v else v;
    var u := NatToString(m);
    ParseUnsignedDecimal(u);
    var s := IntToString(v);
    DigitNotSpace(s[0]);
    assert TrimStart(s) == s;
    if v < 0 {
      assert s[1..] == u;
    }
  }

  /** Reading back what `String(n)` renders with `Number` gives `n`. */
  lemma NumberOfString(n: nat)
    ensures NumberOf(NatToString(n)) == Int(n)
  {
    var u := NatToString(n);
    DigitNotSpace(u[0]);
    DigitNotSpace(u[|u| - 1]);
    TrimTrimmed(u);
    assert u[0] != '-' && u[0] != '+';
  }
}
