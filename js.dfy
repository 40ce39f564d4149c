/** The parts of JavaScript's built-in semantics that the front end's rules rest on:
    values and truthiness, `String(v)`, `parseInt`, `trim`, ASCII case mapping,
    `includes` and `Array.prototype.join`. */
module Js {
  import opened Wrappers

  /** A JavaScript value as the front end meets it. Numbers are integers. */
  datatype Value =
    | Undefined
    | Null
    | Bool(b: bool)
    | Num(n: int)
    | Str(s: string)
    | Arr(items: seq<Value>)

  /** `!!v`: false for undefined, null, false, 0 and ''. Arrays are objects, so truthy. */
  predicate Truthy(v: Value) {
    match v
    case Undefined => false
    case Null => false
    case Bool(b) => b
    case Num(n) => n != 0
    case Str(s) => s != ""
    case Arr(_) => true
  }

  /** Truthiness of the result of `parseInt`, where None stands for NaN (falsy). */
  predicate TruthyNumber(x: Option<int>) {
    x.Some? && x.value != 0
  }

  /** `x < k` for a number that may be NaN: every comparison with NaN is false. */
  predicate NumLess(x: Option<int>, k: int) {
    x.Some? && x.value < k
  }

  /** `x > k` for a number that may be NaN. */
  predicate NumGreater(x: Option<int>, k: int) {
    x.Some? && x.value > k
  }

  /** The ECMAScript WhiteSpace and LineTerminator characters: what `\s` matches and
      what `trim` and `parseInt` skip. */
  const WhitespaceChars: set<char> := {
    '\t', '\n', '\U{B}', '\U{C}', '\r', ' ', '\U{A0}', '\U{1680}',
    '\U{2000}', '\U{2001}', '\U{2002}', '\U{2003}', '\U{2004}', '\U{2005}',
    '\U{2006}', '\U{2007}', '\U{2008}', '\U{2009}', '\U{200A}',
    '\U{2028}', '\U{2029}', '\U{202F}', '\U{205F}', '\U{3000}', '\U{FEFF}'
  }

  predicate IsWhitespace(c: char) {
    c in WhitespaceChars
  }

  predicate NoWhitespace(s: string) {
    forall i | 0 <= i < |s| :: !IsWhitespace(s[i])
  }

  /** `s.trimStart()`: drops the leading whitespace and nothing else. */
  function TrimStart(s: string): (r: string)
    ensures |r| <= |s| && r == s[|s| - |r|..]
    ensures forall i | 0 <= i < |s| - |r| :: IsWhitespace(s[i])
    ensures r == [] || !IsWhitespace(r[0])
  {
    if s != [] && IsWhitespace(s[0]) then TrimStart(s[1..]) else s
  }

  /** `s.trimEnd()`: drops the trailing whitespace and nothing else. */
  function TrimEnd(s: string): (r: string)
    ensures |r| <= |s| && r == s[..|r|]
    ensures forall i | |r| <= i < |s| :: IsWhitespace(s[i])
    ensures r == [] || !IsWhitespace(r[|r| - 1])
  {
    if s != [] && IsWhitespace(s[|s| - 1]) then TrimEnd(s[..|s| - 1]) else s
  }

  /** `s.trim()`. It is empty exactly when every character of `s` is whitespace. */
  function Trim(s: string): (r: string)
    ensures Includes(s, r)
    ensures r == "" <==> forall i | 0 <= i < |s| :: IsWhitespace(s[i])
    ensures r == [] || (!IsWhitespace(r[0]) && !IsWhitespace(r[|r| - 1]))
  {
    TrimBoth(s);
    TrimEnd(TrimStart(s))
  }

  lemma TrimBoth(s: string)
    ensures var r := TrimEnd(TrimStart(s));
      && Includes(s, r)
      && (r == "" <==> forall i | 0 <= i < |s| :: IsWhitespace(s[i]))
      && (r == [] || (!IsWhitespace(r[0]) && !IsWhitespace(r[|r| - 1])))
  {
    var t := TrimStart(s);
    var r := TrimEnd(t);
    assert s[|s| - |t|..][..|r|] == s[|s| - |t|..|s| - |t| + |r|];
    assert IncludesAt(s, r, |s| - |t|);
    if r != "" {
      assert r[0] == t[0];
    }
  }

  /** The test `!s.trim()` of the forms: nothing but whitespace (see BlankIffTrimEmpty). */
  predicate IsBlank(s: string) {
    forall i | 0 <= i < |s| :: IsWhitespace(s[i])
  }

  lemma BlankIffTrimEmpty(s: string)
    ensures IsBlank(s) <==> Trim(s) == ""
  {
  }

  /** `sub` occurs in `s` at offset `i`. */
  predicate IncludesAt(s: string, sub: string, i: int) {
    0 <= i <= |s| - |sub| && s[i..i + |sub|] == sub
  }

  /** `s.includes(sub)`. */
  predicate Includes(s: string, sub: string) {
    exists i | 0 <= i <= |s| - |sub| :: IncludesAt(s, sub, i)
  }

  lemma IncludesEmpty(s: string)
    ensures Includes(s, "")
  {
    assert IncludesAt(s, "", 0);
  }

  lemma IncludesSelf(s: string)
    ensures Includes(s, s)
  {
    assert IncludesAt(s, s, 0);
  }

  function LowerChar(c: char): char {
    if 'A' <= c <= 'Z' then (c as int + 32) as char else c
  }

  function UpperChar(c: char): char {
    if 'a' <= c <= 'z' then (c as int - 32) as char else c
  }

  /** `s.toLowerCase()` on ASCII letters; other characters are left as they are. */
  function ToLower(s: string): (r: string)
    ensures |r| == |s|
  {
    seq(|s|, i requires 0 <= i < |s| => LowerChar(s[i]))
  }

  /** `s.toUpperCase()` on ASCII letters; other characters are left as they are. */
  function ToUpper(s: string): (r: string)
    ensures |r| == |s|
  {
    seq(|s|, i requires 0 <= i < |s| => UpperChar(s[i]))
  }

  /** `parts.join(sep)`. */
  function Join(parts: seq<string>, sep: string): string {
    if |parts| == 0 then ""
    else if |parts| == 1 then parts[0]
    else parts[0] + sep + Join(parts[1..], sep)
  }

  predicate IsDecimalDigit(c: char) {
    '0' <= c <= '9'
  }

  function DigitChar(d: int): (c: char)
    requires 0 <= d < 10
    ensures IsDecimalDigit(c) && DigitValue(c, 10) == d
  {
    "0123456789"[d]
  }

  /** The decimal numeral of a natural number, without leading zeros. */
  function NatToString(n: nat): (r: string)
    ensures |r| > 0
    ensures forall i | 0 <= i < |r| :: IsDecimalDigit(r[i])
    ensures r[0] == '0' ==> n == 0 && r == "0"
  {
    if n < 10 then [DigitChar(n)] else NatToString(n / 10) + [DigitChar(n % 10)]
  }

  /** `String(n)` for an integer. */
  function IntToString(n: int): (r: string)
    ensures |r| > 0
  {
    if n < 0 then "-" + NatToString(-n) else NatToString(n)
  }

  /** `String(v)`. An array is its elements joined with ',', where null and
      undefined elements print as ''. */
  function ToStr(v: Value): string
    decreases v
  {
    match v
    case Undefined => "undefined"
    case Null => "null"
    case Bool(b) => if b then "true" else "false"
    case Num(n) => IntToString(n)
    case Str(s) => s
    case Arr(items) =>
      Join(seq(|items|, i requires 0 <= i < |items| =>
                 if items[i].Null? || items[i].Undefined? then "" else ToStr(items[i])), ",")
  }

  /** The value of a digit character in radix 10 or 16, or -1 when it is not one. */
  function DigitValue(c: char, radix: int): int {
    if '0' <= c <= '9' then c as int - '0' as int
    else if radix == 16 && 'a' <= c <= 'f' then c as int - 'a' as int + 10
    else if radix == 16 && 'A' <= c <= 'F' then c as int - 'A' as int + 10
    else -1
  }

  /** The longest prefix of `s` made of digits of the radix. */
  function DigitPrefix(s: string, radix: int): (r: string)
    ensures |r| <= |s| && r == s[..|r|]
    ensures forall i | 0 <= i < |r| :: DigitValue(r[i], radix) >= 0
    ensures |r| < |s| ==> DigitValue(s[|r|], radix) < 0
  {
    if s == [] || DigitValue(s[0], radix) < 0 then [] else [s[0]] + DigitPrefix(s[1..], radix)
  }

  /** The number a string of digits denotes in the radix. */
  function DigitsValue(ds: string, radix: int): int
    requires forall i | 0 <= i < |ds| :: DigitValue(ds[i], radix) >= 0
  {
    if ds == [] then 0
    else DigitsValue(ds[..|ds| - 1], radix) * radix + DigitValue(ds[|ds| - 1], radix)
  }

  /** `parseInt(s)` with no radix argument, after ECMAScript's `parseInt`: skip leading
      whitespace, read one optional sign, switch to radix 16 after "0x" or "0X", then read
      the longest run of digits. No digits gives NaN (None). Digits after the run, a
      decimal point among them, are ignored, so "2.5" gives 2. */
  function ParseInt(s: string): (r: Option<int>)
    ensures r.None? <==> ParseDigits(s) == ""
  {
    var digits := ParseDigits(s);
    if digits == "" then None
    else
      var value := DigitsValue(digits, ParseRadix(s));
      Some(if ParseNegative(s) then -value else value)
  }

  /** What `parseInt` reads after the whitespace and the sign. */
  function AfterSign(s: string): string {
    var t := TrimStart(s);
    if |t| > 0 && (t[0] == '-' || t[0] == '+') then t[1..] else t
  }

  predicate ParseNegative(s: string) {
    var t := TrimStart(s);
    |t| > 0 && t[0] == '-'
  }

  predicate HasHexPrefix(u: string) {
    |u| >= 2 && u[0] == '0' && (u[1] == 'x' || u[1] == 'X')
  }

  function ParseRadix(s: string): int {
    if HasHexPrefix(AfterSign(s)) then 16 else 10
  }

  /** The digit run `parseInt` converts. */
  function ParseDigits(s: string): (r: string)
    ensures forall i | 0 <= i < |r| :: DigitValue(r[i], ParseRadix(s)) >= 0
  {
    var u := AfterSign(s);
    DigitPrefix(if HasHexPrefix(u) then u[2..] else u, ParseRadix(s))
  }

  /** `parseInt(v)`: the argument is converted with `String` first. */
  function ParseIntValue(v: Value): Option<int> {
    ParseInt(ToStr(v))
  }

  lemma {:induction false} DigitsOfNatToString(n: nat)
    ensures DigitsValue(NatToString(n), 10) == n
  {
    var r := NatToString(n);
    if n >= 10 {
      var p := NatToString(n / 10);
      assert r == p + [DigitChar(n % 10)];
      assert r[..|r| - 1] == p;
      DigitsOfNatToString(n / 10);
    }
  }

  lemma DigitPrefixAllDigits(s: string, radix: int)
    requires forall i | 0 <= i < |s| :: DigitValue(s[i], radix) >= 0
    ensures DigitPrefix(s, radix) == s
  {
  }

  /** Round trip: `parseInt(String(n)) === n` for every integer. */
  lemma {:induction false} ParseIntOfIntToString(n: int)
    ensures ParseInt(IntToString(n)) == Some(n)
  {
    var m: nat := if n < 0 then -n else n;
    var digits := NatToString(m);
    var s := IntToString(n);
    assert s == (if n < 0 then "-" else "") + digits;
    assert !IsWhitespace(s[0]) by {
      assert s[0] == '-' || IsDecimalDigit(s[0]);
    }
    assert TrimStart(s) == s;
    AfterSignOfNumeral(s, digits, n < 0);
    assert !HasHexPrefix(digits) by {
      if |digits| >= 2 { assert IsDecimalDigit(digits[1]); }
    }
    assert ParseRadix(s) == 10;
    ParseDigitsOfNumeral(n, s, digits);
    ParseIntOfNumeral(n, s, digits);
  }

  lemma ParseDigitsOfNumeral(n: int, s: string, digits: string)
    requires digits == NatToString(if n < 0 then -n else n)
    requires AfterSign(s) == digits
    ensures ParseDigits(s) == digits
  {
    assert !HasHexPrefix(digits) by {
      if |digits| >= 2 { assert IsDecimalDigit(digits[1]); }
    }
    DigitPrefixAllDigits(digits, 10);
  }

  lemma ParseIntOfNumeral(n: int, s: string, digits: string)
    requires digits == NatToString(if n < 0 then -n else n)
    requires ParseNegative(s) == (n < 0)
    requires ParseDigits(s) == digits && ParseRadix(s) == 10
    ensures ParseInt(s) == Some(n)
  {
    DigitsOfNatToString(if n < 0 then -n else n);
  }

  lemma AfterSignOfNumeral(s: string, digits: string, neg: bool)
    requires |digits| > 0 && IsDecimalDigit(digits[0])
    requires s == (if neg then "-" else "") + digits
    requires TrimStart(s) == s
    ensures AfterSign(s) == digits && ParseNegative(s) == neg
  {
    if neg {
      assert s[1..] == digits;
    } else {
      assert s == digits;
    }
  }

  /** `parseInt(n)` on a number gives the number back. */
  lemma ParseIntOfNum(n: int)
    ensures ParseIntValue(Num(n)) == Some(n)
  {
    ParseIntOfIntToString(n);
  }

  /** `parseInt('')` and `parseInt` of a blank string are NaN. */
  lemma ParseIntOfBlank(s: string)
    requires IsBlank(s)
    ensures ParseInt(s) == None
  {
    assert TrimStart(s) == "";
  }

  /** `parseInt` stops at the decimal point: "2.5" gives 2. */
  lemma ParseIntOfDecimal()
    ensures ParseInt("2.5") == Some(2)
  {
    assert !IsWhitespace('2');
    assert TrimStart("2.5") == "2.5";
    assert AfterSign("2.5") == "2.5";
    assert ParseRadix("2.5") == 10;
    assert DigitPrefix(".5", 10) == "";
    assert DigitPrefix("2.5", 10) == "2" by {
      assert "2.5"[1..] == ".5";
    }
    assert DigitsValue("2", 10) == 2 by {
      assert "2"[..0] == "";
    }
  }

  /** A string that starts with a letter is NaN: "abc". */
  lemma ParseIntOfLetters()
    ensures ParseInt("abc") == None
  {
    assert !IsWhitespace('a');
    assert TrimStart("abc") == "abc";
    assert AfterSign("abc") == "abc";
    assert ParseRadix("abc") == 10;
  }

  /** `a` is `b` with some elements left out, order kept: what `filter` returns. */
  predicate IsSubsequence<T(==)>(a: seq<T>, b: seq<T>)
    decreases |b|
  {
    if a == [] then true
    else if b == [] then false
    else (a[0] == b[0] && IsSubsequence(a[1..], b[1..])) || IsSubsequence(a, b[1..])
  }
}
