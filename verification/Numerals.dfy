/** Numbers as text: the "%d" of sprintf and the strtol of the C library, as camera/CameraParameters.cpp
    uses them. */
module Numerals {
  import opened CStrings

  const TWO_TO_THE_31 := 0x8000_0000
  const TWO_TO_THE_32 := 0x1_0000_0000
  const TWO_TO_THE_63 := 0x8000_0000_0000_0000

  type Int32 = n: int | -TWO_TO_THE_31 <= n < TWO_TO_THE_31

  // long has 32 or 64 bits.
  datatype Long = Long32 | Long64

  function LongMin(l: Long): int { if l == Long32 then -TWO_TO_THE_31 else -TWO_TO_THE_63 }

  function LongMax(l: Long): int { -LongMin(l) - 1 }

  function Clamp(n: int, l: Long): int {
    if n < LongMin(l) then LongMin(l) else if n > LongMax(l) then LongMax(l) else n
  }

  // The conversion of a long to an int keeps the low 32 bits.
  function ToInt(n: int): Int32 {
    var low := n % TWO_TO_THE_32;
    if low < TWO_TO_THE_31 then low else low - TWO_TO_THE_32
  }

  /* ---- Printing ---- */

  predicate IsDecimal(c: char) { '0' <= c <= '9' }

  function PrintNat(n: nat): (s: string)
    ensures |s| > 0 && forall c :: c in s ==> IsDecimal(c)
    ensures n > 0 ==> s[0] != '0'
  {
    var last := [('0' as int + n % 10) as char];
    if n < 10 then last else PrintNat(n / 10) + last
  }

  function Print(n: int): string {
    if n < 0 then "-" + PrintNat(-n) else PrintNat(n)
  }

  /* ---- Parsing ---- */

  function DigitOf(c: char): int {
    if '0' <= c <= '9' then c as int - '0' as int
    else if 'a' <= c <= 'z' then c as int - 'a' as int + 10
    else if 'A' <= c <= 'Z' then c as int - 'A' as int + 10
    else -1
  }

  predicate IsDigit(c: char, base: nat) { 0 <= DigitOf(c) < base }

  predicate IsSpace(c: char) { c == ' ' || '\t' <= c <= '\r' }

  function SkipSpace(s: string, i: nat): (j: nat)
    requires i <= |s|
    ensures i <= j <= |s|
    decreases |s| - i
  {
    if i < |s| && IsSpace(s[i]) then SkipSpace(s, i + 1) else i
  }

  function ScanDigits(s: string, i: nat, base: nat, acc: nat): (r: (nat, nat))
    requires i <= |s|
    ensures i <= r.1 <= |s|
    decreases |s| - i
  {
    if i < |s| && IsDigit(s[i], base) then ScanDigits(s, i + 1, base, acc * base + DigitOf(s[i])) else (acc, i)
  }

  // The base the digits are in, and where they start: base 0 looks at the prefix, and "0x" counts only
  // before a hexadecimal digit.
  function Prefix(s: string, i: nat, base: nat): (r: (nat, nat))
    requires i <= |s|
    ensures i <= r.1 <= |s|
  {
    if (base == 0 || base == 16) && At(s, i) == '0' && (At(s, i + 1) == 'x' || At(s, i + 1) == 'X')
      && i + 2 < |s| && IsDigit(s[i + 2], 16)
    then (16, i + 2)
    else if base == 0 then (if At(s, i) == '0' then 8 else 10, i)
    else (base, i)
  }

  // strtol on the string that starts at position i: the value, and the position after the number, which
  // is i when there is none.
  function Strtol(s: string, i: nat, base: nat, l: Long): (r: (int, nat))
    requires i <= |s|
    ensures i <= r.1 <= |s|
  {
    var j := SkipSpace(s, i);
    var k := if At(s, j) == '-' || At(s, j) == '+' then (if j < |s| then j + 1 else j) else j;
    var (b, m) := Prefix(s, k, base);
    var (v, e) := ScanDigits(s, m, b, 0);
    var signed: int := if At(s, j) == '-' then -(v as int) else v;
    if e == m then (0, i) else (Clamp(signed, l), e)
  }

  /* ---- Printing and parsing back ---- */

  predicate AllDigits(d: string, base: nat) { forall c :: c in d ==> IsDigit(c, base) }

  function ValueOf(d: string, base: nat, acc: nat): nat
    requires AllDigits(d, base)
  {
    if d == [] then acc else assert d[0] in d; ValueOf(d[1..], base, acc * base + DigitOf(d[0]))
  }

  lemma {:induction false} ValueOfAppend(d: string, c: char, base: nat, acc: nat)
    requires AllDigits(d, base) && IsDigit(c, base)
    ensures AllDigits(d + [c], base)
    ensures ValueOf(d + [c], base, acc) == ValueOf(d, base, acc) * base + DigitOf(c)
  {
    assert AllDigits(d + [c], base);
    if d == [] {
      assert (d + [c])[1..] == [];
    } else {
      assert d[0] in d;
      assert (d + [c])[1..] == d[1..] + [c];
      ValueOfAppend(d[1..], c, base, acc * base + DigitOf(d[0]));
    }
  }

  lemma {:induction false} PrintedValue(n: nat)
    ensures AllDigits(PrintNat(n), 10) && ValueOf(PrintNat(n), 10, 0) == n
  {
    var last := ('0' as int + n % 10) as char;
    if n >= 10 {
      PrintedValue(n / 10);
      ValueOfAppend(PrintNat(n / 10), last, 10, 0);
    } else {
      ValueOfAppend([], last, 10, 0);
      assert [] + [last] == [last];
    }
  }

  // Scanning stops exactly at the end of a run of digits.
  lemma {:induction false} ScanRun(s: string, i: nat, d: string, base: nat, acc: nat)
    requires AllDigits(d, base) && i + |d| <= |s| && s[i..i + |d|] == d
    requires i + |d| == |s| || !IsDigit(s[i + |d|], base)
    ensures ScanDigits(s, i, base, acc) == (ValueOf(d, base, acc), i + |d|)
    decreases |d|
  {
    if d == [] {
    } else {
      assert s[i] == d[0] && d[0] in d;
      assert s[i + 1..i + 1 + |d[1..]|] == d[1..];
      ScanRun(s, i + 1, d[1..], base, acc * base + DigitOf(d[0]));
    }
  }

  predicate EndsNumber(s: string, i: nat) { i >= |s| || !IsDecimal(s[i]) }

  lemma PrintedParts(n: int)
    ensures var p := Print(n);
      var d := PrintNat(if n < 0 then -n else n);
      && !IsSpace(p[0])
      && (p[0] == '-' <==> n < 0) && p[0] != '+'
      && p == (if n < 0 then "-" else "") + d
  {
    var d := PrintNat(if n < 0 then -n else n);
    assert d[0] in d;
    assert "" + d == d;
  }

  // Scanning what PrintNat printed, in the base its prefix asks for.
  lemma ScanPrinted(s: string, k: nat, m: nat, base: nat)
    requires base == 10 || base == 0
    requires k + |PrintNat(m)| <= |s| && s[k..k + |PrintNat(m)|] == PrintNat(m) && EndsNumber(s, k + |PrintNat(m)|)
    requires base == 0 ==> At(s, k + |PrintNat(m)|) != 'x' && At(s, k + |PrintNat(m)|) != 'X'
    ensures var (b, start) := Prefix(s, k, base);
      start == k && ScanDigits(s, k, b, 0) == (m, k + |PrintNat(m)|)
  {
    var d := PrintNat(m);
    assert s[k] == d[0] && d[0] in d;
    if m == 0 {
      assert d == "0";
      ScanRun(s, k, d, if base == 0 then 8 else 10, 0);
      assert d[1..] == [];
    } else {
      PrintedValue(m);
      ScanRun(s, k, d, 10, 0);
    }
  }

  // A printed int reads back as itself, in base 10 and in base 0, wherever it stands in a string, as long
  // as no digit follows it; in base 0 no "x" may follow either.
  lemma StrtolReadsPrint(s: string, i: nat, n: Int32, base: nat, l: Long)
    requires base == 10 || base == 0
    requires i + |Print(n)| <= |s| && s[i..i + |Print(n)|] == Print(n) && EndsNumber(s, i + |Print(n)|)
    requires base == 0 ==> At(s, i + |Print(n)|) != 'x' && At(s, i + |Print(n)|) != 'X'
    ensures Strtol(s, i, base, l) == (n, i + |Print(n)|)
  {
    hide Prefix, ScanDigits, PrintNat, Print;
    var p := Print(n);
    var m: nat := if n < 0 then -(n as int) else n;
    var d := PrintNat(m);
    var k := if n < 0 then i + 1 else i;
    PrintedParts(n);
    assert s[i] == p[0];
    assert s[k..k + |d|] == d;
    ScanPrinted(s, k, m, base);
  }

  /* ---- Base 0 ---- */

  predicate AllSpace(s: string) { forall c :: c in s ==> IsSpace(c) }

  predicate IsSign(s: string) { s == "" || s == "+" || s == "-" }

  lemma {:induction false} SkipRun(s: string, i: nat, j: nat)
    requires i <= j <= |s| && AllSpace(s[i..j]) && (j < |s| ==> !IsSpace(s[j]))
    ensures SkipSpace(s, i) == j
    decreases j - i
  {
    if i == j {
    } else {
      assert s[i] == s[i..j][0] && s[i + 1..j] == s[i..j][1..];
      SkipRun(s, i + 1, j);
    }
  }

  // A number text is blanks, a sign or none, and a body: a body of decimal digits that does not begin with 0,
  // or 0x and hexadecimal digits, or 0 and octal digits. In base 0 it reads as the value of its digits in the
  // base its body tells.
  predicate IsBody(body: string, base: nat, digits: string) {
    && AllDigits(digits, base)
    && ( || (base == 10 && body == digits && digits != "" && digits[0] != '0')
         || (base == 16 && (body == "0x" + digits || body == "0X" + digits) && digits != "")
         || (base == 8 && body == "0" + digits))
  }

  lemma BodyFacts(body: string, base: nat, digits: string)
    requires IsBody(body, base, digits)
    ensures base in {8, 10, 16} && body != "" && IsDecimal(body[0])
    ensures !IsSpace(body[0]) && body[0] != '-' && body[0] != '+'
  {
    if base == 10 {
      assert digits[0] in digits;
    }
  }

  lemma BodyPrefix(s: string, k: nat, body: string, base: nat, digits: string)
    requires IsBody(body, base, digits) && k <= |s| && s[k..] == body
    ensures var (b, m) := Prefix(s, k, 0);
      && b == base
      && ScanDigits(s, m, b, 0) == (ValueOf(digits, base, 0), |s|)
      && m < |s|
  {
    assert s[k] == body[0];
    if base == 10 {
      assert digits[0] in digits;
      assert s[k..k + |digits|] == digits;
      ScanRun(s, k, digits, 10, 0);
    } else if base == 16 {
      assert s[k + 1] == body[1] && s[k + 2] == body[2] == digits[0] && digits[0] in digits;
      assert s[k + 2..k + 2 + |digits|] == s[k..][2..] == digits;
      ScanRun(s, k + 2, digits, 16, 0);
    } else {
      OctalBody(s, k, body, digits);
    }
  }

  lemma OctalBody(s: string, k: nat, body: string, digits: string)
    requires AllDigits(digits, 8) && body == "0" + digits && k <= |s| && s[k..] == body
    ensures Prefix(s, k, 0) == (8, k) && ScanDigits(s, k, 8, 0) == (ValueOf(digits, 8, 0), |s|)
  {
    assert s[k] == '0';
    if digits != "" {
      assert s[k + 1] == body[1] == digits[0] && digits[0] in digits;
    }
    assert s[k + 1..k + 1 + |digits|] == s[k..][1..] == digits;
    ScanRun(s, k + 1, digits, 8, 0);
  }

  // Main result: strtol in base 0 takes decimal, hexadecimal and octal numbers, with blanks and a sign.
  lemma StrtolBaseZero(blanks: string, sign: string, body: string, base: nat, digits: string, l: Long)
    requires AllSpace(blanks) && IsSign(sign) && IsBody(body, base, digits)
    ensures var s := blanks + sign + body;
      var value := ValueOf(digits, base, 0);
      Strtol(s, 0, 0, l) == (Clamp(if sign == "-" then -(value as int) else value, l), |s|)
  {
    var s := blanks + sign + body;
    var j, k := |blanks|, |blanks| + |sign|;
    BodyFacts(body, base, digits);
    assert s[0..j] == blanks && s[k..] == body && s[k] == body[0];
    assert sign != "" ==> s[j] == sign[0];
    SkipRun(s, 0, j);
    BodyPrefix(s, k, body, base, digits);
    hide SkipSpace, ScanDigits, ValueOf, Prefix, IsBody, Clamp;
  }

  // The conversion to int keeps the value up to a multiple of 2 to the 32.
  lemma ToIntIsLowBits(n: int)
    ensures (n - ToInt(n)) % TWO_TO_THE_32 == 0
  {
  }
}
