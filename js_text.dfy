/** The JavaScript string built-ins the storefront leans on: case mapping,
    `includes`, `split(' ')`, `Number.prototype.toString` on integers,
    the `\s` character class and `parseInt`. Case mapping is modelled on the
    ASCII letters only. */
module JsText {

  predicate IsUpper(c: char) { 'A' <= c <= 'Z' }
  predicate IsLower(c: char) { 'a' <= c <= 'z' }
  predicate IsDigit(c: char) { '0' <= c <= '9' }

  function LowerChar(c: char): char
  {
    if IsUpper(c) then (c as int + 32) as char else c
  }

  function UpperChar(c: char): char
  {
    if IsLower(c) then (c as int - 32) as char else c
  }

  /** `s.toLowerCase()` */
  function ToLowerCase(s: string): (r: string)
    ensures |r| == |s|
    ensures forall i :: 0 <= i < |s| ==> r[i] == LowerChar(s[i]) && !IsUpper(r[i])
  {
    seq(|s|, i requires 0 <= i < |s| => LowerChar(s[i]))
  }

  /** `s.toUpperCase()` */
  function ToUpperCase(s: string): (r: string)
    ensures |r| == |s|
    ensures forall i :: 0 <= i < |s| ==> r[i] == UpperChar(s[i]) && !IsLower(r[i])
  {
    seq(|s|, i requires 0 <= i < |s| => UpperChar(s[i]))
  }

  /** Lower-casing a string with no upper-case letter changes nothing. */
  lemma LowerCaseFixesLower(s: string)
    requires forall i :: 0 <= i < |s| ==> !IsUpper(s[i])
    ensures ToLowerCase(s) == s
  {
  }

  /** `s.charAt(0).toUpperCase() + s.slice(1)` */
  function Capitalize(s: string): (r: string)
    ensures |r| == |s|
    ensures s != [] ==> r[0] == UpperChar(s[0]) && r[1..] == s[1..]
  {
    if s == [] then "" else [UpperChar(s[0])] + s[1..]
  }

  predicate StartsWith(s: string, prefix: string)
  {
    |prefix| <= |s| && s[..|prefix|] == prefix
  }

  /** `s.includes(sub)`: `sub` occurs in `s` at some position. */
  predicate Includes(s: string, sub: string)
    decreases |s|
  {
    StartsWith(s, sub) || (s != [] && Includes(s[1..], sub))
  }

  /** `sub` occurs in `s` starting at offset `k`. */
  predicate OccursAt(s: string, sub: string, k: int)
  {
    0 <= k <= |s| - |sub| && s[k..k + |sub|] == sub
  }

  /** `Includes` is exactly "occurs at some offset". */
  lemma {:induction false} IncludesAt(s: string, sub: string)
    ensures Includes(s, sub) <==> exists k :: OccursAt(s, sub, k)
    decreases |s|
  {
    if s != [] {
      IncludesAt(s[1..], sub);
      if Includes(s[1..], sub) && !StartsWith(s, sub) {
        var k :| OccursAt(s[1..], sub, k);
        assert s[k + 1..k + 1 + |sub|] == s[1..][k..k + |sub|];
        assert OccursAt(s, sub, k + 1);
      }
      if StartsWith(s, sub) {
        assert OccursAt(s, sub, 0);
      }
      if exists k :: OccursAt(s, sub, k) {
        var k :| OccursAt(s, sub, k);
        if k > 0 {
          assert s[1..][k - 1..k - 1 + |sub|] == s[k..k + |sub|];
          assert OccursAt(s[1..], sub, k - 1);
        } else {
          assert s[..|sub|] == s[0..|sub|];
          assert StartsWith(s, sub);
        }
      }
    } else if sub == [] {
      assert OccursAt(s, sub, 0);
    }
  }

  /** Every string includes the empty string. */
  lemma IncludesEmpty(s: string)
    ensures Includes(s, "")
  {
  }

  /** `s.split(sep)` for a one-character separator: the pieces between the
      separators, at least one (possibly empty) piece. */
  function Split(s: string, sep: char): (parts: seq<string>)
    ensures |parts| >= 1
    ensures forall i :: 0 <= i < |parts| ==> sep !in parts[i]
    decreases |s|
  {
    if s == [] then [""]
    else
      var rest := Split(s[1..], sep);
      if s[0] == sep then [""] + rest
      else [[s[0]] + rest[0]] + rest[1..]
  }

  /** `parts.join(sep)` */
  function Join(parts: seq<string>, sep: char): string
    decreases |parts|
  {
    if parts == [] then ""
    else if |parts| == 1 then parts[0]
    else parts[0] + [sep] + Join(parts[1..], sep)
  }

  /** Splitting and joining back gives the original string. */
  lemma {:induction false} JoinSplit(s: string, sep: char)
    ensures Join(Split(s, sep), sep) == s
    decreases |s|
  {
    if s != [] {
      JoinSplit(s[1..], sep);
      var rest := Split(s[1..], sep);
      if s[0] != sep {
        if |rest| == 1 {
          assert Split(s, sep) == [[s[0]] + rest[0]];
        } else {
          assert Split(s, sep)[1..] == rest[1..];
        }
      }
    }
  }

  /** A string splits into exactly one piece iff it holds no separator. */
  lemma {:induction false} SplitSingle(s: string, sep: char)
    ensures |Split(s, sep)| == 1 <==> sep !in s
    ensures sep !in s ==> Split(s, sep) == [s]
    decreases |s|
  {
    if s != [] {
      SplitSingle(s[1..], sep);
      assert s == [s[0]] + s[1..];
    }
  }

  function DigitChar(d: int): char
    requires 0 <= d < 10
  {
    ('0' as int + d) as char
  }

  /** `n.toString()` for a natural number: its decimal digits, most
      significant first, with no leading zero. */
  function NatToString(n: nat): (r: string)
    ensures |r| >= 1
    ensures forall i :: 0 <= i < |r| ==> IsDigit(r[i])
    ensures |r| > 1 ==> r[0] != '0'
  {
    if n < 10 then [DigitChar(n)] else NatToString(n / 10) + [DigitChar(n % 10)]
  }

  /** `n.toString()` for an integer. */
  function IntToString(n: int): (r: string)
    ensures |r| >= 1
    ensures n >= 0 ==> r == NatToString(n)
    ensures n < 0 ==> r == "-" + NatToString(-n)
  {
    if n < 0 then "-" + NatToString(-n) else NatToString(n)
  }

  /** The characters JavaScript's `\s` and `String.prototype.trim` treat as
      white space: the white-space and line-terminator characters. */
  predicate IsJsSpace(c: char)
  {
    c == ' ' || c == '\t' || c == '\n' || c == '\r' || c == '\U{B}' || c == '\U{C}'
    || c == '\U{A0}' || c == '\U{1680}' || ('\U{2000}' <= c <= '\U{200A}')
    || c == '\U{2028}' || c == '\U{2029}' || c == '\U{202F}' || c == '\U{205F}'
    || c == '\U{3000}' || c == '\U{FEFF}'
  }

  /** A number produced by `parseInt`: `NaN` or an integer. */
  datatype JsInt = NaN | Int(value: int)

  /** `JsInt.toString()`. */
  function JsIntToString(n: JsInt): string
  {
    match n
    case NaN => "NaN"
    case Int(v) => IntToString(v)
  }

  function SkipSpaces(s: string): (r: string)
    ensures |r| <= |s| && r == s[|s| - |r|..]
    ensures r != [] ==> !IsJsSpace(r[0])
    ensures s != [] && !IsJsSpace(s[0]) ==> r == s
  {
    if s != [] && IsJsSpace(s[0]) then SkipSpaces(s[1..]) else s
  }

  predicate IsHexDigit(c: char)
  {
    IsDigit(c) || ('a' <= c <= 'f') || ('A' <= c <= 'F')
  }

  predicate IsRadixDigit(c: char, radix: int)
  {
    if radix == 16 then IsHexDigit(c) else IsDigit(c)
  }

  function DigitValue(c: char): (d: nat)
    ensures IsDigit(c) ==> d == c as int - '0' as int
  {
    if IsDigit(c) then c as int - '0' as int
    else if 'a' <= c <= 'f' then c as int - 'a' as int + 10
    else if 'A' <= c <= 'F' then c as int - 'A' as int + 10
    else 0
  }

  /** The longest prefix of `s` made of digits of the radix. */
  function DigitPrefix(s: string, radix: int): (r: string)
    ensures |r| <= |s| && r == s[..|r|]
    ensures forall i :: 0 <= i < |r| ==> IsRadixDigit(r[i], radix)
    ensures |r| < |s| ==> !IsRadixDigit(s[|r|], radix)
  {
    if s != [] && IsRadixDigit(s[0], radix) then [s[0]] + DigitPrefix(s[1..], radix) else ""
  }

  /** The value of a string of digits, most significant first. */
  function DigitsValue(d: string, radix: nat): nat
  {
    if d == [] then 0 else DigitsValue(d[..|d| - 1], radix) * radix + DigitValue(d[|d| - 1])
  }

  /** The digits `parseInt` reads once white space and sign are gone, and
      their radix: a `0x`/`0X` prefix selects hexadecimal and the digits
      after it, otherwise the decimal digits at the start. Digits are read
      only when the text starts with a decimal digit, and always then. */
  function ReadDigits(u: string): (d: (string, nat))
    ensures d.0 != [] <==> u != [] && IsDigit(u[0]) && (d.1 == 10 || (|u| > 2 && IsHexDigit(u[2])))
    ensures u != [] && IsDigit(u[0]) && d.1 == 10 ==> d.0 != []
    ensures d.1 == 10 || d.1 == 16
  {
    var hex := |u| >= 2 && u[0] == '0' && (u[1] == 'x' || u[1] == 'X');
    if hex then (DigitPrefix(u[2..], 16), 16) else (DigitPrefix(u, 10), 10)
  }

  /** What `parseInt` keeps of `s` once leading white space and one sign
      are gone, and whether that sign was a minus. */
  function StripSign(s: string): (r: (bool, string))
    ensures |r.1| <= |s| && r.1 == s[|s| - |r.1|..]
    ensures r.0 ==> '-' in s
    ensures s != [] && IsDigit(s[0]) ==> r == (false, s)
    ensures s != [] && s[0] == '-' ==> r == (true, s[1..])
  {
    var t := SkipSpaces(s);
    assert s != [] && (IsDigit(s[0]) || s[0] == '-') ==> t == s by {
      if s != [] && (IsDigit(s[0]) || s[0] == '-') {
        SignOrDigitIsNotSpace(s[0]);
      }
    }
    if t != [] && t[0] == '-' then (true, t[1..])
    else if t != [] && t[0] == '+' then (false, t[1..])
    else (false, t)
  }

  lemma SignOrDigitIsNotSpace(c: char)
    requires IsDigit(c) || c == '-'
    ensures !IsJsSpace(c)
  {
  }

  /** `parseInt(s)` with no radix: leading white space is skipped, one sign
      is read, then the digits `ReadDigits` finds; no digit at all gives
      `NaN`. So a text without a decimal digit is `NaN`, only a text with a
      minus sign can read as a negative number, and a text that starts
      with a decimal digit other than `0` always reads as a number. */
  function ParseInt(s: string): (r: JsInt)
    ensures (forall i :: 0 <= i < |s| ==> !IsDigit(s[i])) ==> r == NaN
    ensures r.Int? && r.value < 0 ==> '-' in s
    ensures s != [] && '1' <= s[0] <= '9' ==> r.Int? && r.value >= 0
  {
    var signed := StripSign(s);
    var u := signed.1;
    var d := ReadDigits(u);
    var magnitude: int := DigitsValue(d.0, d.1);
    assert d.0 != [] ==> u[0] == s[|s| - |u|];
    if d.0 == [] then NaN else Int(if signed.0 then -magnitude else magnitude)
  }

  lemma {:induction false} DigitPrefixOfDigits(s: string)
    requires forall i :: 0 <= i < |s| ==> IsDigit(s[i])
    ensures DigitPrefix(s, 10) == s
  {
    if s != [] {
      DigitPrefixOfDigits(s[1..]);
    }
  }

  lemma {:induction false} NatToStringValue(n: nat)
    ensures DigitsValue(NatToString(n), 10) == n
  {
    if n >= 10 {
      NatToStringValue(n / 10);
      var r := NatToString(n);
      assert r[..|r| - 1] == NatToString(n / 10);
    }
  }

  /** After the sign, the digits of a natural number are read in decimal
      and denote that number. */
  lemma ReadNatString(n: nat)
    ensures ReadDigits(NatToString(n)) == (NatToString(n), 10)
    ensures DigitsValue(NatToString(n), 10) == n
  {
    var r := NatToString(n);
    assert |r| < 2 || r[0] != '0';
    DigitPrefixOfDigits(r);
    NatToStringValue(n);
  }

  /** `parseInt(n.toString())` gives `n` back. */
  lemma ParseIntToString(n: int)
    ensures ParseInt(IntToString(n)) == Int(n)
  {
    if n >= 0 {
      ParseIntOfDigits(NatToString(n), n, false);
    } else {
      ParseIntOfDigits("-" + NatToString(-n), -n, true);
    }
  }

  /** `parseInt` of the digits of `m`, after a minus sign when `negative`. */
  lemma ParseIntOfDigits(r: string, m: nat, negative: bool)
    requires r == (if negative then "-" else "") + NatToString(m)
    ensures ParseInt(r) == Int(if negative then -(m as int) else m)
  {
    var d := NatToString(m);
    ReadNatString(m);
    if negative {
      assert r[1..] == d;
      assert StripSign(r) == (true, d);
    } else {
      assert r == d;
      assert StripSign(d) == (false, d);
    }
    ParseIntOfParts(r, d, m, negative);
  }

  /** `parseInt` once the sign and the decimal digits are known. */
  lemma ParseIntOfParts(r: string, d: string, m: nat, negative: bool)
    requires StripSign(r) == (negative, d)
    requires ReadDigits(d) == (d, 10) && d != []
    requires DigitsValue(d, 10) == m
    ensures ParseInt(r) == Int(if negative then -(m as int) else m)
  {
  }
}
