/** Pairs and lists of sizes as text: parse_pair and parseSizesList of camera/CameraParameters.cpp. */
module SizeList {
  import opened Options
  import opened CStrings
  import opened Numerals

  type Size = (Int32, Int32)

  // parse_pair on the string that starts at position i: the two numbers and the position after them.
  function ParsePair(s: string, i: nat, delim: char, l: Long): (r: Option<(Int32, Int32, nat)>)
    requires i <= |s| && delim != '\0'
    ensures r.Some? ==> i < r.value.2 <= |s|
  {
    var (w, e) := Strtol(s, i, 10, l);
    if At(s, e) != delim then None
    else
      var (h, f) := Strtol(s, e + 1, 10, l);
      Some((ToInt(w), ToInt(h), f))
  }

  function PrintPair(size: Size, delim: char): string {
    Print(size.0) + [delim] + Print(size.1)
  }

  lemma ToIntOfInt(n: Int32)
    ensures ToInt(n) == n
  {
  }

  // A printed pair reads back as itself when no digit follows it.
  lemma ParsePrintedPair(s: string, i: nat, size: Size, delim: char, l: Long)
    requires delim != '\0' && !IsDecimal(delim)
    requires var p := PrintPair(size, delim);
      i + |p| <= |s| && s[i..i + |p|] == p && EndsNumber(s, i + |p|)
    ensures ParsePair(s, i, delim, l) == Some((size.0, size.1, i + |PrintPair(size, delim)|))
  {
    hide Strtol, Print;
    var p := PrintPair(size, delim);
    var a, b := Print(size.0), Print(size.1);
    assert s[i..i + |a|] == p[..|a|] == a;
    assert s[i + |a|] == p[|a|] == delim;
    assert s[i + |a| + 1..i + |p|] == p[|a| + 1..] == b;
    StrtolReadsPrint(s, i, size.0, 10, l);
    StrtolReadsPrint(s, i + |a| + 1, size.1, 10, l);
    ToIntOfInt(size.0);
    ToIntOfInt(size.1);
  }

  /* ---- Lists ---- */

  // parseSizesList from position i on.
  function ParseSizes(s: string, i: nat, l: Long): seq<Size>
    requires i <= |s|
    decreases |s| - i
  {
    match ParsePair(s, i, 'x', l)
    case None => []
    case Some((w, h, e)) =>
      if e == |s| then [(w, h)]
      else if s[e] != ',' then []
      else [(w, h)] + ParseSizes(s, e + 1, l)
  }

  method ParseSizesList(sizesStr: Option<string>, l: Long) returns (sizes: seq<Size>)
    ensures sizes == if sizesStr.None? then [] else ParseSizes(sizesStr.value, 0, l)
  {
    hide ParsePair;
    sizes := [];
    if sizesStr.None? {
      return;
    }
    var s := sizesStr.value;
    var start := 0;
    ghost var goal := ParseSizes(s, 0, l);
    while true
      invariant start <= |s| && goal == sizes + ParseSizes(s, start, l)
      decreases |s| - start
    {
      var pair := ParsePair(s, start, 'x', l);
      if pair.None? || (pair.value.2 != |s| && s[pair.value.2] != ',') {
        return;
      }
      ghost var before := sizes;
      var size := (pair.value.0, pair.value.1);
      sizes := sizes + [size];
      if pair.value.2 == |s| {
        return;
      }
      start := pair.value.2 + 1;
      assert before + ([size] + ParseSizes(s, start, l)) == sizes + ParseSizes(s, start, l);
    }
  }

  function PrintSizes(sizes: seq<Size>): string {
    if sizes == [] then ""
    else if |sizes| == 1 then PrintPair(sizes[0], 'x')
    else PrintPair(sizes[0], 'x') + "," + PrintSizes(sizes[1..])
  }

  lemma PrintedSizesParts(s: string, i: nat, sizes: seq<Size>)
    requires i <= |s| && s[i..] == PrintSizes(sizes) && sizes != []
    ensures var p := PrintPair(sizes[0], 'x');
      && i + |p| <= |s| && s[i..i + |p|] == p
      && (|sizes| == 1 ==> i + |p| == |s|)
      && (|sizes| > 1 ==> i + |p| < |s| && s[i + |p|] == ',' && s[i + |p| + 1..] == PrintSizes(sizes[1..]))
  {
    hide PrintPair;
    var p := PrintPair(sizes[0], 'x');
    var whole := PrintSizes(sizes);
    assert s[i..i + |p|] == whole[..|p|] == p;
    if |sizes| > 1 {
      assert s[i + |p|] == whole[|p|] == ',';
      assert s[i + |p| + 1..] == whole[|p| + 1..] == PrintSizes(sizes[1..]);
    }
  }

  lemma NoPairAtEnd(s: string, l: Long)
    ensures ParsePair(s, |s|, 'x', l).None?
  {
    assert SkipSpace(s, |s|) == |s|;
  }

  // Main result: every list of sizes reads back as itself.
  lemma {:induction false} SizesRoundTrip(s: string, i: nat, sizes: seq<Size>, l: Long)
    requires i <= |s| && s[i..] == PrintSizes(sizes)
    ensures ParseSizes(s, i, l) == sizes
    decreases |sizes|
  {
    hide ParsePair, PrintPair;
    if sizes == [] {
      NoPairAtEnd(s, l);
    } else {
      hide PrintSizes;
      var e := i + |PrintPair(sizes[0], 'x')|;
      PrintedSizesParts(s, i, sizes);
      ParsePrintedPair(s, i, sizes[0], 'x', l);
      if |sizes| > 1 {
        SizesRoundTrip(s, e + 1, sizes[1..], l);
        assert sizes == [sizes[0]] + sizes[1..];
      }
    }
  }

  /* ---- Any string ---- */

  // The pieces between the commas from position i on.
  function Split(s: string, i: nat): (r: seq<string>)
    requires i <= |s|
    decreases |s| - i
  {
    var f := Find(s, ',', i);
    if f == |s| then [s[i..]] else [s[i..f]] + Split(s, f + 1)
  }

  // A piece that is a pair from end to end.
  function WholePair(piece: string, l: Long): Option<Size> {
    match ParsePair(piece, 0, 'x', l)
    case None => None
    case Some((w, h, e)) => if e == |piece| then Some((w, h)) else None
  }

  function UpToFirstBad(pieces: seq<string>, l: Long): seq<Size> {
    if pieces == [] then []
    else
      match WholePair(pieces[0], l)
      case None => []
      case Some(size) => [size] + UpToFirstBad(pieces[1..], l)
  }

  // A stretch of s that ends at the end of s or at a comma.
  ghost predicate Stretch(s: string, i: nat, f: nat) {
    i <= f <= |s| && (f < |s| ==> s[f] == ',')
  }

  lemma {:induction false} SkipSpaceLocal(s: string, i: nat, f: nat, j: nat)
    requires Stretch(s, i, f) && i <= j <= f
    ensures SkipSpace(s, j) == i + SkipSpace(s[i..f], j - i) <= f
    decreases f - j
  {
    if j == f {
    } else {
      assert s[i..f][j - i] == s[j];
      if IsSpace(s[j]) {
        SkipSpaceLocal(s, i, f, j + 1);
      }
    }
  }

  lemma {:induction false} ScanLocal(s: string, i: nat, f: nat, j: nat, base: nat, acc: nat)
    requires Stretch(s, i, f) && i <= j <= f
    ensures var (v, e) := ScanDigits(s[i..f], j - i, base, acc);
      ScanDigits(s, j, base, acc) == (v, i + e) && i + e <= f
    decreases f - j
  {
    if j == f {
    } else {
      assert s[i..f][j - i] == s[j];
      if IsDigit(s[j], base) {
        ScanLocal(s, i, f, j + 1, base, acc * base + DigitOf(s[j]));
      }
    }
  }

  // A number never reaches over a comma.
  lemma StrtolLocal(s: string, i: nat, f: nat, j: nat, l: Long)
    requires Stretch(s, i, f) && i <= j <= f
    ensures var (v, e) := Strtol(s[i..f], j - i, 10, l);
      Strtol(s, j, 10, l) == (v, i + e) && i + e <= f
  {
    hide SkipSpace, ScanDigits;
    SkipSpaceLocal(s, i, f, j);
    var t := s[i..f];
    var a := SkipSpace(s, j);
    assert a < f ==> t[a - i] == s[a];
    var k := if At(s, a) == '-' || At(s, a) == '+' then (if a < |s| then a + 1 else a) else a;
    assert k <= f;
    ScanLocal(s, i, f, k, 10, 0);
  }

  lemma PairLocal(s: string, i: nat, f: nat, l: Long)
    requires Stretch(s, i, f)
    ensures var here := ParsePair(s[i..f], 0, 'x', l);
      ParsePair(s, i, 'x', l) == if here.None? then None else Some((here.value.0, here.value.1, i + here.value.2))
    ensures var r := ParsePair(s, i, 'x', l);
      r.Some? ==> r.value.2 <= f
  {
    hide Strtol, ToInt;
    StrtolLocal(s, i, f, i, l);
    var e := Strtol(s, i, 10, l).1;
    assert e < f ==> s[i..f][e - i] == s[e];
    if e < f && s[e] == 'x' {
      StrtolLocal(s, i, f, e + 1, l);
    }
  }

  // Main result: on every string the parser ends and keeps exactly the pairs before the first piece
  // between commas that is not a pair from end to end.
  lemma {:induction false} ParsesUpToFirstBad(s: string, i: nat, l: Long)
    requires i <= |s|
    ensures ParseSizes(s, i, l) == UpToFirstBad(Split(s, i), l)
    decreases |s| - i
  {
    hide ParsePair;
    var f := Find(s, ',', i);
    PairLocal(s, i, f, l);
    assert f == |s| ==> s[i..f] == s[i..];
    var pair := ParsePair(s, i, 'x', l);
    if f == |s| {
      assert UpToFirstBad([s[i..]][1..], l) == [];
    } else {
      assert Split(s, i)[1..] == Split(s, f + 1);
      ParsesUpToFirstBad(s, f + 1, l);
    }
  }

  /* ---- Which pieces are pairs ---- */

  // Blanks, a sign or none, and digits.
  predicate IsNumber(t: string, blanks: string, sign: string, digits: string) {
    && t == blanks + sign + digits
    && AllSpace(blanks) && IsSign(sign) && digits != "" && AllDigits(digits, 10)
  }

  function NumberValue(sign: string, digits: string, l: Long): int
    requires AllDigits(digits, 10)
  {
    Clamp(if sign == "-" then -(ValueOf(digits, 10, 0) as int) else ValueOf(digits, 10, 0), l)
  }

  // The text of a number, or nothing at all, which counts as 0.
  ghost predicate ReadsAs(t: string, n: int, l: Long) {
    || (t == "" && n == 0)
    || exists blanks, sign, digits :: IsNumber(t, blanks, sign, digits) && n == NumberValue(sign, digits, l)
  }

  lemma {:induction false} SkippedSpace(s: string, i: nat)
    requires i <= |s|
    ensures var j := SkipSpace(s, i);
      AllSpace(s[i..j]) && (j < |s| ==> !IsSpace(s[j]))
    decreases |s| - i
  {
    if i == |s| || !IsSpace(s[i]) {
    } else {
      SkippedSpace(s, i + 1);
      assert s[i..SkipSpace(s, i)] == [s[i]] + s[i + 1..SkipSpace(s, i)];
    }
  }

  lemma {:induction false} ScannedDigits(s: string, i: nat, acc: nat)
    requires i <= |s|
    ensures var (v, e) := ScanDigits(s, i, 10, acc);
      AllDigits(s[i..e], 10) && v == ValueOf(s[i..e], 10, acc)
    decreases |s| - i
  {
    if i == |s| || !IsDigit(s[i], 10) {
    } else {
      var next := acc * 10 + DigitOf(s[i]);
      ScannedDigits(s, i + 1, next);
      var e := ScanDigits(s, i + 1, 10, next).1;
      assert s[i..e] == [s[i]] + s[i + 1..e];
      assert s[i..e][1..] == s[i + 1..e];
    }
  }

  lemma ThreeParts(s: string, i: nat, j: nat, k: nat, e: nat)
    requires i <= j <= k <= e <= |s|
    ensures s[i..e] == s[i..j] + s[j..k] + s[k..e]
  {
  }

  // At most one character between blanks and digits, and it is a sign.
  lemma SignIs(s: string, j: nat, k: nat)
    requires j <= k <= |s| && k == if At(s, j) == '-' || At(s, j) == '+' then (if j < |s| then j + 1 else j) else j
    ensures IsSign(s[j..k]) && (s[j..k] == "-" <==> At(s, j) == '-')
  {
    assert k == j ==> s[j..k] == "";
    assert k == j + 1 ==> s[j..k] == [s[j]];
  }

  lemma NumberReads(t: string, blanks: string, sign: string, digits: string, l: Long)
    requires IsNumber(t, blanks, sign, digits)
    ensures ReadsAs(t, NumberValue(sign, digits, l), l)
  {
  }

  // What strtol takes is the text of the number it gives, or nothing.
  lemma StrtolTakes(s: string, i: nat, l: Long)
    requires i <= |s|
    ensures var (w, e) := Strtol(s, i, 10, l);
      ReadsAs(s[i..e], w, l)
  {
    var j := SkipSpace(s, i);
    SkippedSpace(s, i);
    var k := if At(s, j) == '-' || At(s, j) == '+' then (if j < |s| then j + 1 else j) else j;
    ScannedDigits(s, k, 0);
    var (v, e) := ScanDigits(s, k, 10, 0);
    hide SkipSpace, ScanDigits, ValueOf, AllSpace, AllDigits, Clamp;
    if e > k {
      ThreeParts(s, i, j, k, e);
      SignIs(s, j, k);
      assert IsNumber(s[i..e], s[i..j], s[j..k], s[k..e]);
      assert Strtol(s, i, 10, l) == (NumberValue(s[j..k], s[k..e], l), e);
      NumberReads(s[i..e], s[i..j], s[j..k], s[k..e], l);
    } else {
      assert s[i..i] == "";
    }
  }

  lemma SliceOf(s: string, i: nat, e: nat, p: nat, q: nat)
    requires i <= e <= |s| && p <= q <= e - i
    ensures s[i..e][p..q] == s[i + p..i + q]
  {
    assert forall k :: 0 <= k < q - p ==> s[i..e][p..q][k] == s[i + p..i + q][k];
  }

  lemma PartsOf(s: string, i: nat, e: nat, blanks: string, sign: string, digits: string)
    requires i <= e <= |s| && s[i..e] == blanks + sign + digits
    ensures var j := i + |blanks|;
      var k := j + |sign|;
      && k + |digits| == e
      && s[i..j] == blanks && s[j..k] == sign && s[k..e] == digits
  {
    var t := s[i..e];
    var p, q := |blanks|, |blanks| + |sign|;
    assert |t| == e - i == q + |digits|;
    assert s[i..i + p] == t[..p] == blanks;
    SliceOf(s, i, e, p, q);
    assert t[p..q] == sign;
    assert s[i + q..e] == t[q..] == digits;
  }

  lemma StrtolOfNumber(s: string, i: nat, e: nat, blanks: string, sign: string, digits: string, l: Long)
    requires i <= e <= |s| && IsNumber(s[i..e], blanks, sign, digits) && (e < |s| ==> !IsDecimal(s[e]))
    ensures Strtol(s, i, 10, l) == (NumberValue(sign, digits, l), e)
  {
    var j := i + |blanks|;
    var k := j + |sign|;
    PartsOf(s, i, e, blanks, sign, digits);
    assert s[k] == digits[0] && digits[0] in digits;
    assert sign != "" ==> s[j] == sign[0];
    assert sign == "" ==> j == k;
    SkipRun(s, i, j);
    ScanRun(s, k, digits, 10, 0);
    assert Prefix(s, k, 10) == (10, k);
    hide SkipSpace, ScanDigits, ValueOf, AllSpace, AllDigits, Clamp, Prefix;
  }

  // Where a number, or nothing, stands before something that is neither blank, sign nor digit, strtol takes
  // exactly that.
  lemma StrtolOf(s: string, i: nat, e: nat, n: int, l: Long)
    requires i <= e <= |s| && ReadsAs(s[i..e], n, l)
    requires e < |s| ==> !IsSpace(s[e]) && s[e] != '-' && s[e] != '+' && !IsDecimal(s[e])
    ensures Strtol(s, i, 10, l) == (n, e)
  {
    var t := s[i..e];
    if exists blanks, sign, digits :: IsNumber(t, blanks, sign, digits) && n == NumberValue(sign, digits, l) {
      var blanks, sign, digits :| IsNumber(t, blanks, sign, digits) && n == NumberValue(sign, digits, l);
      hide Strtol;
      StrtolOfNumber(s, i, e, blanks, sign, digits, l);
    } else {
      SkipRun(s, i, i);
    }
  }

  // Main result: the pieces that are pairs are two numbers with an 'x' between them, where a number may
  // have blanks and a sign in front, and may be missing altogether, which counts as 0.
  lemma WholePairIff(piece: string, size: Size, l: Long)
    ensures WholePair(piece, l) == Some(size)
       <==> exists a, c, m, n :: IsPair(piece, a, c, m, n, l) && size == (ToInt(m), ToInt(n))
  {
    hide Strtol, ToInt, ReadsAs;
    if WholePair(piece, l) == Some(size) {
      var (m, e) := Strtol(piece, 0, 10, l);
      var (n, f) := Strtol(piece, e + 1, 10, l);
      StrtolTakes(piece, 0, l);
      StrtolTakes(piece, e + 1, l);
      assert piece[0..e] == piece[..e] && piece[e + 1..f] == piece[e + 1..];
      assert piece == piece[..e] + "x" + piece[e + 1..];
      assert IsPair(piece, piece[..e], piece[e + 1..], m, n, l);
    }
    if exists a, c, m, n :: IsPair(piece, a, c, m, n, l) && size == (ToInt(m), ToInt(n)) {
      var a, c, m, n :| IsPair(piece, a, c, m, n, l) && size == (ToInt(m), ToInt(n));
      assert piece[0..|a|] == a && piece[|a|] == 'x' && piece[|a| + 1..|piece|] == c;
      StrtolOf(piece, 0, |a|, m, l);
      StrtolOf(piece, |a| + 1, |piece|, n, l);
    }
  }

  ghost predicate IsPair(piece: string, a: string, c: string, m: int, n: int, l: Long) {
    piece == a + "x" + c && ReadsAs(a, m, l) && ReadsAs(c, n, l)
  }

  // A bare 'x' is the size 0 by 0, and a missing number is 0.
  lemma MissingNumbersAreZero(l: Long)
    ensures WholePair("x", l) == Some((0, 0)) && WholePair("1x", l) == Some((1, 0))
  {
    assert IsPair("x", "", "", 0, 0, l) by { assert "x" == "" + "x" + ""; }
    WholePairIff("x", (0, 0), l);
    assert IsNumber("1", "", "", "1") && NumberValue("", "1", l) == 1 by { assert "1" == "" + "" + "1"; assert "1"[1..] == ""; }
    assert IsPair("1x", "1", "", 1, 0, l) by { assert "1x" == "1" + "x" + ""; }
    WholePairIff("1x", (1, 0), l);
  }
}
