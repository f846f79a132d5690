/**
 * The PHP string built-ins the gateway relies on, with the behaviour PHP
 * gives them: trim/ltrim/rtrim, strtolower (ASCII), substr from offset 0,
 * explode/implode, intval on a string and the decimal rendering of an int
 * (`(string) $n`).
 */
module PhpStrings {

  import opened Base

  // ---------------------------------------------------------------- trimming

  /** The characters PHP's trim() strips by default: " \t\n\r\0\x0B". */
  const TrimChars: set<char> := {' ', '\t', '\n', '\r', '\U{0}', '\U{B}'}

  /** ltrim($s, $chars): drops the longest prefix made of characters in `chars`. */
  function LTrim(s: string, chars: set<char>): (r: string)
    ensures |r| <= |s|
  {
    if s != [] && s[0] in chars then LTrim(s[1..], chars) else s
  }

  /** ltrim leaves a suffix that does not start with a stripped character, and strips only such characters. */
  lemma {:induction false} LTrimSpec(s: string, chars: set<char>)
    ensures var r := LTrim(s, chars);
      r == s[|s| - |r|..] && (r != [] ==> r[0] !in chars)
      && forall i :: 0 <= i < |s| - |r| ==> s[i] in chars
    decreases |s|
  {
    if s != [] && s[0] in chars {
      LTrimSpec(s[1..], chars);
    }
  }

  /** rtrim($s, $chars): drops the longest suffix made of characters in `chars`. */
  function RTrim(s: string, chars: set<char>): (r: string)
    ensures |r| <= |s|
  {
    if s != [] && s[|s| - 1] in chars then RTrim(s[..|s| - 1], chars) else s
  }

  /** rtrim leaves a prefix that does not end with a stripped character, and strips only such characters. */
  lemma {:induction false} RTrimSpec(s: string, chars: set<char>)
    ensures var r := RTrim(s, chars);
      r == s[..|r|] && (r != [] ==> r[|r| - 1] !in chars)
      && forall i :: |r| <= i < |s| ==> s[i] in chars
    decreases |s|
  {
    if s != [] && s[|s| - 1] in chars {
      RTrimSpec(s[..|s| - 1], chars);
    }
  }

  /** trim($s) with PHP's default character list. */
  function Trim(s: string): string {
    RTrim(LTrim(s, TrimChars), TrimChars)
  }

  /** trim() yields "" exactly when the string is made of whitespace only. */
  lemma TrimEmpty(s: string)
    ensures Trim(s) == [] <==> forall i :: 0 <= i < |s| ==> s[i] in TrimChars
  {
    var l := LTrim(s, TrimChars);
    LTrimSpec(s, TrimChars);
    RTrimSpec(l, TrimChars);
    if l != [] {
      assert s[|s| - |l|] == l[0];
      assert RTrim(l, TrimChars) != [] by {
        assert l[0] !in TrimChars;
      }
    }
  }

  /** A trimmed string neither starts nor ends with whitespace. */
  lemma TrimEnds(s: string)
    ensures Trim(s) != [] ==> Trim(s)[0] !in TrimChars && Trim(s)[|Trim(s)| - 1] !in TrimChars
  {
    var l := LTrim(s, TrimChars);
    LTrimSpec(s, TrimChars);
    RTrimSpec(l, TrimChars);
    if Trim(s) != [] {
      assert Trim(s)[0] == l[0];
    }
  }

  // ------------------------------------------------------- case and substr

  /** strtolower on one character (ASCII letters only, as PHP 8 does). */
  function LowerChar(c: char): char {
    if 'A' <= c <= 'Z' then (c as int + 32) as char else c
  }

  /** strtolower($s). */
  function Lower(s: string): (r: string)
    ensures |r| == |s|
    // ASCII capitals become their lower-case letters; every other character stays
    ensures forall i :: 0 <= i < |s| && 'A' <= s[i] <= 'Z' ==> r[i] as int == s[i] as int + 32 && 'a' <= r[i] <= 'z'
    ensures forall i :: 0 <= i < |s| && !('A' <= s[i] <= 'Z') ==> r[i] == s[i]
  {
    seq(|s|, i requires 0 <= i < |s| => LowerChar(s[i]))
  }

  /** substr($s, 0, $n): the first n characters, or the whole string when shorter. */
  function Prefix(s: string, n: nat): (r: string)
    ensures r == s[..if n <= |s| then n else |s|]
  {
    if n <= |s| then s[..n] else s
  }

  // -------------------------------------------------------- explode/implode

  /** The separator occurs in `s` at position `i`. */
  predicate OccursAt(s: string, sep: string, i: nat) {
    i + |sep| <= |s| && s[i..i + |sep|] == sep
  }

  /** strpos($s, $sep, $i): the first occurrence of `sep` at or after `i`. */
  function FindFrom(s: string, sep: string, i: nat): (r: Option<nat>)
    requires |sep| > 0
    ensures r.Some? ==> i <= r.value && OccursAt(s, sep, r.value)
    ensures r.Some? ==> forall j :: i <= j < r.value ==> !OccursAt(s, sep, j)
    ensures r.None? ==> forall j :: i <= j ==> !OccursAt(s, sep, j)
    decreases |s| - i
  {
    if i + |sep| > |s| then None
    else if OccursAt(s, sep, i) then Some(i)
    else FindFrom(s, sep, i + 1)
  }

  /** explode($sep, $s): the pieces between the non-overlapping occurrences of `sep`, left to right. */
  function Explode(sep: string, s: string): (parts: seq<string>)
    requires |sep| > 0
    ensures |parts| >= 1
    ensures |parts| == 1 <==> FindFrom(s, sep, 0).None?
    decreases |s|
  {
    match FindFrom(s, sep, 0)
    case None => [s]
    case Some(i) => [s[..i]] + Explode(sep, s[i + |sep|..])
  }

  /** implode($sep, $parts). */
  function Implode(sep: string, parts: seq<string>): string {
    if |parts| == 0 then ""
    else if |parts| == 1 then parts[0]
    else parts[0] + sep + Implode(sep, parts[1..])
  }

  /** Imploding what explode produced gives back the original string. */
  lemma {:induction false} ImplodeExplode(sep: string, s: string)
    requires |sep| > 0
    ensures Implode(sep, Explode(sep, s)) == s
    decreases |s|
  {
    match FindFrom(s, sep, 0)
    case None =>
    case Some(i) =>
      var rest := Explode(sep, s[i + |sep|..]);
      ImplodeExplode(sep, s[i + |sep|..]);
      assert Explode(sep, s) == [s[..i]] + rest;
      assert Implode(sep, [s[..i]] + rest) == s[..i] + sep + Implode(sep, rest) by {
        assert ([s[..i]] + rest)[1..] == rest;
      }
      CutAround(s, sep, i);
  }

  /** An occurrence of the separator cuts the string into what is before it, itself, and what is after it. */
  lemma CutAround(s: string, sep: string, i: nat)
    requires OccursAt(s, sep, i)
    ensures s == s[..i] + sep + s[i + |sep|..]
  {
    assert s == s[..i] + s[i..i + |sep|] + s[i + |sep|..];
  }

  /** No piece that explode produces contains the separator. */
  lemma {:induction false} ExplodePiecesFree(sep: string, s: string)
    requires |sep| > 0
    ensures forall k: nat, j: nat :: k < |Explode(sep, s)| ==> !OccursAt(Explode(sep, s)[k], sep, j)
    decreases |s|
  {
    match FindFrom(s, sep, 0)
    case None =>
      assert Explode(sep, s) == [s];
    case Some(i) =>
      var rest := Explode(sep, s[i + |sep|..]);
      ExplodePiecesFree(sep, s[i + |sep|..]);
      assert Explode(sep, s) == [s[..i]] + rest;
      forall k: nat, j: nat | k < |Explode(sep, s)|
        ensures !OccursAt(Explode(sep, s)[k], sep, j)
      {
        if k == 0 {
          assert Explode(sep, s)[0] == s[..i];
          if j + |sep| <= i {
            assert !OccursAt(s, sep, j);
            assert s[..i][j..j + |sep|] == s[j..j + |sep|];
          }
        } else {
          assert Explode(sep, s)[k] == rest[k - 1];
          assert !OccursAt(rest[k - 1], sep, j);
        }
      }
  }

  /** Appending one piece appends the separator and the piece. */
  lemma {:induction false} ImplodeSnoc(sep: string, parts: seq<string>, x: string)
    requires |parts| >= 1
    ensures Implode(sep, parts + [x]) == Implode(sep, parts) + sep + x
    decreases |parts|
  {
    if |parts| == 1 {
      assert (parts + [x])[1..] == [x];
    } else {
      assert (parts + [x])[1..] == parts[1..] + [x];
      ImplodeSnoc(sep, parts[1..], x);
    }
  }

  // ------------------------------------------------------ integers in text

  predicate IsDigit(c: char) {
    '0' <= c <= '9'
  }

  predicate AllDigits(s: string) {
    forall i :: 0 <= i < |s| ==> IsDigit(s[i])
  }

  /** The value of a string of decimal digits, read left to right. */
  function DigitsValue(d: string): nat
    requires AllDigits(d)
  {
    if d == [] then 0 else DigitsValue(d[..|d| - 1]) * 10 + (d[|d| - 1] as int - '0' as int)
  }

  /** The longest prefix of `s` made of digits. */
  function LeadingDigits(s: string): (d: string)
    ensures AllDigits(d)
  {
    if s != [] && IsDigit(s[0]) then [s[0]] + LeadingDigits(s[1..]) else []
  }

  /** LeadingDigits is the longest prefix made of digits. */
  lemma {:induction false} LeadingDigitsSpec(s: string)
    ensures var d := LeadingDigits(s);
      |d| <= |s| && d == s[..|d|] && (|d| < |s| ==> !IsDigit(s[|d|]))
    decreases |s|
  {
    if s != [] && IsDigit(s[0]) {
      LeadingDigitsSpec(s[1..]);
    }
  }

  const PhpIntMax: int := 0x7FFF_FFFF_FFFF_FFFF
  const PhpIntMin: int := -0x8000_0000_0000_0000

  /** The whitespace PHP skips in front of a numeric string. */
  const NumericLeadingWhitespace: set<char> := {' ', '\t', '\n', '\r', '\U{B}', '\U{C}'}

  /** An out-of-range integer string converts to the nearest 64-bit bound. */
  function Saturate(n: int): (r: int)
    ensures PhpIntMin <= r <= PhpIntMax
    ensures PhpIntMin <= n <= PhpIntMax ==> r == n
    ensures n > PhpIntMax ==> r == PhpIntMax
    ensures n < PhpIntMin ==> r == PhpIntMin
  {
    if n > PhpIntMax then PhpIntMax else if n < PhpIntMin then PhpIntMin else n
  }

  /**
   * intval($s) on a 64-bit build: leading whitespace, an optional sign, then
   * the leading digits; no digits gives 0.
   */
  function Intval(s: string): (n: int)
    ensures PhpIntMin <= n <= PhpIntMax
  {
    var t := LTrim(s, NumericLeadingWhitespace);
    var signed := t != [] && (t[0] == '-' || t[0] == '+');
    var v: int := DigitsValue(LeadingDigits(if signed then t[1..] else t));
    Saturate(if signed && t[0] == '-' then -v else v)
  }

  function DigitChar(d: nat): char
    requires d < 10
  {
    ('0' as int + d) as char
  }

  /** The decimal digits of a natural number, without leading zeros. */
  function NatString(n: nat): string {
    if n < 10 then [DigitChar(n)] else NatString(n / 10) + [DigitChar(n % 10)]
  }

  /** (string) $n for a PHP int. */
  function IntString(n: int): string {
    if n < 0 then "-" + NatString(-n) else NatString(n)
  }

  /** Rendering a number gives digits without a leading zero whose value is the number. */
  lemma {:induction false} NatStringDigits(n: nat)
    ensures NatString(n) != [] && AllDigits(NatString(n))
    ensures n > 0 ==> NatString(n)[0] != '0'
    ensures DigitsValue(NatString(n)) == n
    decreases n
  {
    if n >= 10 {
      NatStringDigits(n / 10);
      var s := NatString(n);
      assert s[..|s| - 1] == NatString(n / 10);
    }
  }

  /** A digit string without a leading zero has a positive value. */
  lemma {:induction false} DigitsValuePositive(t: string)
    requires t != [] && AllDigits(t) && t[0] != '0'
    ensures DigitsValue(t) >= 1
    ensures |t| >= 2 ==> DigitsValue(t) >= 10
    decreases |t|
  {
    if |t| >= 2 {
      DigitsValuePositive(t[..|t| - 1]);
    }
  }

  /** Reading then rendering a digit string without a leading zero gives it back. */
  lemma {:induction false} NatStringOfDigits(t: string)
    requires t != [] && AllDigits(t) && t[0] != '0'
    ensures NatString(DigitsValue(t)) == t
    decreases |t|
  {
    DigitsValuePositive(t);
    if |t| >= 2 {
      var p := t[..|t| - 1];
      NatStringOfDigits(p);
      var v := DigitsValue(t);
      assert v / 10 == DigitsValue(p);
      assert t == p + [t[|t| - 1]];
    }
  }

  /** A string of zeros is worth 0. */
  lemma {:induction false} ZerosValue(z: string)
    requires forall i :: 0 <= i < |z| ==> z[i] == '0'
    ensures AllDigits(z) && DigitsValue(z) == 0
    decreases |z|
  {
    if z != [] {
      ZerosValue(z[..|z| - 1]);
    }
  }

  /** Leading zeros do not change the value of a digit string. */
  lemma {:induction false} LeadingZerosValue(z: string, t: string)
    requires forall i :: 0 <= i < |z| ==> z[i] == '0'
    requires AllDigits(t)
    ensures AllDigits(z + t) && DigitsValue(z + t) == DigitsValue(t)
    decreases |t|
  {
    ZerosValue(z);
    if t == [] {
      assert z + t == z;
    } else {
      LeadingZerosValue(z, t[..|t| - 1]);
      assert (z + t)[..|z + t| - 1] == z + t[..|t| - 1];
    }
  }
}
