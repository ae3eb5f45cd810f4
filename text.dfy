/** String primitives of the JavaScript runtime that the services rely on:
    character classes of regular expressions, trim, case mapping, searching,
    splitting and the number conversions of `parseInt` and `toString`.
    Strings are sequences of code points. */
module Text {
  import opened Wrappers

  /** ECMAScript WhiteSpace and LineTerminator: what `trim` removes and `\s` matches. */
  predicate IsWhitespace(c: char) {
    || c == ' ' || c == '\t' || c == '\n' || c == '\r' || c == '\U{0B}' || c == '\U{0C}'
    || c == '\U{A0}' || c == '\U{1680}' || ('\U{2000}' <= c <= '\U{200A}')
    || c == '\U{2028}' || c == '\U{2029}' || c == '\U{202F}' || c == '\U{205F}'
    || c == '\U{3000}' || c == '\U{FEFF}'
  }

  /** The characters that `.` in a regular expression does not match. */
  predicate IsLineTerminator(c: char) {
    c == '\n' || c == '\r' || c == '\U{2028}' || c == '\U{2029}'
  }

  /** What `.` can match through: a text without line terminators. */
  predicate NoLineTerminator(s: string) {
    forall i :: 0 <= i < |s| ==> !IsLineTerminator(s[i])
  }

  lemma NoLineTerminatorConcat(a: string, b: string)
    requires NoLineTerminator(a) && NoLineTerminator(b)
    ensures NoLineTerminator(a + b)
  {
    forall i | 0 <= i < |a + b| ensures !IsLineTerminator((a + b)[i]) {
      if i >= |a| {
        assert (a + b)[i] == b[i - |a|];
      }
    }
  }

  predicate IsDigit(c: char) {
    '0' <= c <= '9'
  }

  /** `\w` of a regular expression. */
  predicate IsWordChar(c: char) {
    ('a' <= c <= 'z') || ('A' <= c <= 'Z') || IsDigit(c) || c == '_'
  }

  predicate AllWhitespace(s: string) {
    forall i :: 0 <= i < |s| ==> IsWhitespace(s[i])
  }

  /** `toLowerCase` on one character, for the ASCII and Latin-1 letters. */
  function LowerChar(c: char): char {
    if ('A' <= c <= 'Z') || ('\U{C0}' <= c <= '\U{DE}' && c != '\U{D7}') then
      (c as int + 32) as char
    else
      c
  }

  /** `toUpperCase` on one character, for the ASCII and Latin-1 letters. */
  function UpperChar(c: char): char {
    if ('a' <= c <= 'z') || ('\U{E0}' <= c <= '\U{FE}' && c != '\U{F7}') then
      (c as int - 32) as char
    else
      c
  }

  function ToLower(s: string): (r: string)
    ensures |r| == |s| && forall i :: 0 <= i < |s| ==> r[i] == LowerChar(s[i])
  {
    seq(|s|, i requires 0 <= i < |s| => LowerChar(s[i]))
  }

  function ToUpper(s: string): (r: string)
    ensures |r| == |s| && forall i :: 0 <= i < |s| ==> r[i] == UpperChar(s[i])
  {
    seq(|s|, i requires 0 <= i < |s| => UpperChar(s[i]))
  }

  /** `trimStart`: the suffix left after the leading whitespace run. */
  function TrimStart(s: string): (r: string)
    ensures |r| <= |s| && r == s[|s| - |r|..]
    ensures r == [] || !IsWhitespace(r[0])
    ensures AllWhitespace(s[..|s| - |r|])
  {
    if s != [] && IsWhitespace(s[0]) then
      var r := TrimStart(s[1..]);
      TrimStartStep(s, r);
      r
    else
      assert s[..0] == [];
      s
  }

  /** A leading blank joins the whitespace run dropped from the rest. */
  lemma TrimStartStep(s: string, r: string)
    requires s != [] && IsWhitespace(s[0])
    requires |r| <= |s| - 1 && r == s[1..][|s| - 1 - |r|..]
    requires AllWhitespace(s[1..][..|s| - 1 - |r|])
    ensures r == s[|s| - |r|..]
    ensures AllWhitespace(s[..|s| - |r|])
  {
    var tail := s[1..];
    assert tail[|tail| - |r|..] == s[|s| - |r|..];
    var run := s[..|s| - |r|];
    forall i | 0 <= i < |run| ensures IsWhitespace(run[i]) {
      if i > 0 {
        assert run[i] == tail[..|tail| - |r|][i - 1];
      }
    }
  }

  /** `trimEnd`: the prefix left after the trailing whitespace run. */
  function TrimEnd(s: string): (r: string)
    ensures |r| <= |s| && r == s[..|r|]
    ensures r == [] || !IsWhitespace(r[|r| - 1])
    ensures AllWhitespace(s[|r|..])
  {
    if s != [] && IsWhitespace(s[|s| - 1]) then
      var r := TrimEnd(s[..|s| - 1]);
      TrimEndStep(s, r);
      r
    else
      assert s[|s|..] == [];
      s
  }

  /** A trailing blank joins the whitespace run dropped from the rest. */
  lemma TrimEndStep(s: string, r: string)
    requires s != [] && IsWhitespace(s[|s| - 1])
    requires |r| <= |s| - 1 && r == s[..|s| - 1][..|r|]
    requires AllWhitespace(s[..|s| - 1][|r|..])
    ensures r == s[..|r|]
    ensures AllWhitespace(s[|r|..])
  {
    var init := s[..|s| - 1];
    assert init[..|r|] == s[..|r|];
    forall i | 0 <= i < |s| - |r| ensures IsWhitespace(s[|r|..][i]) {
      if i < |s| - 1 - |r| {
        assert s[|r|..][i] == init[|r|..][i];
      }
    }
  }

  /** `trim`: empty exactly when the input is all whitespace. */
  function Trim(s: string): (r: string)
    ensures r == [] || (!IsWhitespace(r[0]) && !IsWhitespace(r[|r| - 1]))
    ensures r == [] <==> AllWhitespace(s)
    ensures |r| <= |s|
  {
    var t := TrimStart(s);
    assert s == s[..|s| - |t|] + t;
    TrimEnd(t)
  }

  /** `trim` leaves a text without surrounding whitespace as it is. */
  lemma TrimIdentity(s: string)
    requires s == [] || (!IsWhitespace(s[0]) && !IsWhitespace(s[|s| - 1]))
    ensures Trim(s) == s
  {
    assert TrimStart(s) == s;
    assert TrimEnd(s) == s;
  }

  /** `trim` cuts a slice out of its input. */
  lemma TrimIsSlice(s: string) returns (a: nat, b: nat)
    ensures a <= b <= |s| && Trim(s) == s[a..b]
  {
    var t := TrimStart(s);
    var e := TrimEnd(t);
    a := |s| - |t|;
    b := a + |e|;
    assert t == s[a..];
    assert e == t[..|e|];
    assert Trim(s) == e;
    assert t[..|e|] == s[a..b];
  }

  predicate StartsWith(s: string, p: string) {
    |p| <= |s| && s[..|p|] == p
  }

  predicate EndsWith(s: string, p: string) {
    |p| <= |s| && s[|s| - |p|..] == p
  }

  /** A prefix test under the `i` flag of a regular expression. */
  predicate StartsWithIgnoreCase(s: string, p: string) {
    |p| <= |s| && ToLower(s[..|p|]) == ToLower(p)
  }

  /** `t` occurs in `s` at index `i`. */
  predicate OccursAt(s: string, t: string, i: int) {
    0 <= i && i + |t| <= |s| && s[i..i + |t|] == t
  }

  /** An occurrence inside an infix of `s` is an occurrence in `s`. */
  lemma OccursInInfix(s: string, t: string, a: nat, u: string, j: int)
    requires a + |u| <= |s| && s[a..a + |u|] == u
    requires OccursAt(u, t, j)
    ensures OccursAt(s, t, a + j)
  {
    forall k | 0 <= k < |t| ensures s[a + j..a + j + |t|][k] == t[k] {
      assert t[k] == u[j..j + |t|][k] == u[j + k] == s[a..a + |u|][j + k];
    }
  }

  /** A string absent from `s` is absent from every infix of `s`. */
  lemma AbsentFromInfix(s: string, t: string, a: nat, u: string)
    requires a + |u| <= |s| && s[a..a + |u|] == u
    requires forall k :: !OccursAt(s, t, k)
    ensures !Contains(u, t)
  {
    if Contains(u, t) {
      OccursInInfix(s, t, a, u, Find(u, t).value);
    }
  }

  /** The text before the first occurrence of `t` holds no `t`, even trimmed. */
  lemma HeadBeforeFirstHasNone(s: string, t: string, i: nat)
    requires |t| > 0 && Find(s, t) == Some(i)
    ensures !Contains(Trim(s[..i]), t)
  {
    NoneBeforeFirst(s, t, i);
    TrimmedAbsent(s[..i], t);
  }

  /** Trimming a text that holds no occurrence leaves none. */
  lemma TrimmedAbsent(u: string, t: string)
    requires forall k :: !OccursAt(u, t, k)
    ensures !Contains(Trim(u), t)
  {
    var a, b := TrimIsSlice(u);
    AbsentFromInfix(u, t, a, u[a..b]);
  }

  /** The text before the first occurrence holds none. */
  lemma NoneBeforeFirst(s: string, t: string, i: nat)
    requires |t| > 0 && Find(s, t) == Some(i)
    ensures forall k :: !OccursAt(s[..i], t, k)
  {
    forall k | OccursAt(s[..i], t, k) ensures false {
      OccursInInfix(s, t, 0, s[..i], k);
    }
  }

  /** `indexOf(c)`: the first index holding `c`. */
  function IndexOf(s: string, c: char): (r: Option<nat>)
    ensures r.Some? ==> r.value < |s| && s[r.value] == c && c !in s[..r.value]
    ensures r.None? ==> c !in s
  {
    if s == [] then None
    else if s[0] == c then Some(0)
    else
      match IndexOf(s[1..], c)
      case None => None
      case Some(k) => assert s[..k + 1] == [s[0]] + s[1..][..k]; Some(k + 1)
  }

  /** `lastIndexOf(c)`: the last index holding `c`. */
  function LastIndexOf(s: string, c: char): (r: Option<nat>)
    ensures r.Some? ==> r.value < |s| && s[r.value] == c && c !in s[r.value + 1..]
    ensures r.None? ==> c !in s
  {
    if s == [] then None
    else if s[|s| - 1] == c then Some(|s| - 1)
    else
      var r := LastIndexOf(s[..|s| - 1], c);
      assert r.Some? ==> s[r.value + 1..] == s[..|s| - 1][r.value + 1..] + [s[|s| - 1]];
      assert s == s[..|s| - 1] + [s[|s| - 1]];
      r
  }

  /** `indexOf(t)` for a string `t`: the first index where `t` occurs. */
  function Find(s: string, t: string): (r: Option<nat>)
    ensures r.Some? ==> OccursAt(s, t, r.value) && forall j :: 0 <= j < r.value ==> !OccursAt(s, t, j)
    ensures r.None? ==> forall j :: !OccursAt(s, t, j)
    decreases |s|
  {
    if StartsWith(s, t) then Some(0)
    else if s == [] then None
    else
      var r := Find(s[1..], t);
      OccursShift(s, t);
      match r
      case None => None
      case Some(k) => Some(k + 1)
  }

  /** Occurrences past the first character are those of the tail, one
      position further on. */
  lemma OccursShift(s: string, t: string)
    requires s != []
    ensures forall j :: 1 <= j ==> (OccursAt(s, t, j) <==> OccursAt(s[1..], t, j - 1))
  {
    forall j | 1 <= j ensures OccursAt(s, t, j) <==> OccursAt(s[1..], t, j - 1) {
      if j + |t| <= |s| {
        var u := s[1..];
        assert u[j - 1..] == s[j..];
        assert u[j - 1..j - 1 + |t|] == u[j - 1..][..|t|];
        assert s[j..j + |t|] == s[j..][..|t|];
        assert s[j..j + |t|] == u[j - 1..j - 1 + |t|];
      }
    }
  }

  /** `includes(t)`. */
  predicate Contains(s: string, t: string) {
    Find(s, t).Some?
  }

  /** Number of occurrences of `c`, as `(s.match(/c/g) || []).length`. */
  function Count(s: string, c: char): (n: nat)
    ensures n <= |s|
  {
    if s == [] then 0 else (if s[0] == c then 1 else 0) + Count(s[1..], c)
  }

  lemma {:induction false} CountAppend(a: string, b: string, c: char)
    ensures Count(a + b, c) == Count(a, c) + Count(b, c)
  {
    if a != [] {
      assert (a + b)[1..] == a[1..] + b;
      CountAppend(a[1..], b, c);
    } else {
      assert a + b == b;
    }
  }

  /** `n` copies of `u`, concatenated. */
  function Repeat(u: string, n: nat): (r: string)
    ensures |r| == n * |u|
  {
    if n == 0 then [] else Repeat(u, n - 1) + u
  }

  lemma {:induction false} CountRepeat(u: string, n: nat, c: char)
    ensures Count(Repeat(u, n), c) == n * Count(u, c)
  {
    if n > 0 {
      CountRepeat(u, n - 1, c);
      CountAppend(Repeat(u, n - 1), u, c);
      MulSucc(n - 1, Count(u, c));
    }
  }

  lemma MulSucc(m: nat, k: nat)
    ensures (m + 1) * k == m * k + k
  {
  }

  /** `split(sep)` with a one-character separator: the pieces between separators. */
  function Split(s: string, sep: char): (r: seq<string>)
    ensures |r| >= 1
    ensures forall k :: 0 <= k < |r| ==> sep !in r[k]
    decreases |s|
  {
    match IndexOf(s, sep)
    case None => [s]
    case Some(k) => [s[..k]] + Split(s[k + 1..], sep)
  }

  /** `join(sep)`: the inverse of Split. */
  function Join(pieces: seq<string>, sep: char): string
    requires |pieces| >= 1
  {
    if |pieces| == 1 then pieces[0] else pieces[0] + [sep] + Join(pieces[1..], sep)
  }

  lemma {:induction false} JoinSplit(s: string, sep: char)
    ensures Join(Split(s, sep), sep) == s
    decreases |s|
  {
    match IndexOf(s, sep)
    case None =>
    case Some(k) =>
      var rest := Split(s[k + 1..], sep);
      assert Split(s, sep) == [s[..k]] + rest;
      assert ([s[..k]] + rest)[1..] == rest;
      JoinSplit(s[k + 1..], sep);
      assert Join(Split(s, sep), sep) == s[..k] + [sep] + Join(rest, sep);
      assert s == s[..k] + [sep] + s[k + 1..];
  }

  function DigitChar(d: nat): char
    requires d < 10
  {
    ('0' as int + d) as char
  }

  function DigitValue(c: char): nat
    requires IsDigit(c)
  {
    c as int - '0' as int
  }

  /** `Number.prototype.toString()` of a non-negative integer. */
  function NatToString(n: nat): (r: string)
    ensures |r| >= 1 && forall i :: 0 <= i < |r| ==> IsDigit(r[i])
  {
    if n < 10 then [DigitChar(n)] else NatToString(n / 10) + [DigitChar(n % 10)]
  }

  /** `Number.prototype.toString()` of an integer. */
  function IntToString(n: int): (r: string)
    ensures r != []
  {
    if n < 0 then "-" + NatToString(-n) else NatToString(n)
  }

  /** The value of a run of decimal digits. */
  function DigitsValue(ds: string): nat
    requires forall i :: 0 <= i < |ds| ==> IsDigit(ds[i])
  {
    if ds == [] then 0 else DigitsValue(ds[..|ds| - 1]) * 10 + DigitValue(ds[|ds| - 1])
  }

  /** The longest prefix made of decimal digits. */
  function DigitPrefix(s: string): (r: string)
    ensures |r| <= |s| && r == s[..|r|]
    ensures forall i :: 0 <= i < |r| ==> IsDigit(r[i])
    ensures |r| == |s| || !IsDigit(s[|r|])
  {
    if s != [] && IsDigit(s[0]) then [s[0]] + DigitPrefix(s[1..]) else []
  }

  /** `parseInt(s, 10)`: leading whitespace and one sign are skipped, then the
      longest run of digits is read; no digit at all is NaN (None). */
  function ParseDecimal(s: string): Option<int> {
    var t := TrimStart(s);
    var ds := DigitPrefix(Unsigned(t));
    if ds == [] then None
    else
      var v: int := DigitsValue(ds);
      Some(if t[0] == '-' then -v else v)
  }

  /** The text after one leading sign, if any. */
  function Unsigned(t: string): (r: string)
    ensures |r| <= |t|
  {
    if t != [] && (t[0] == '-' || t[0] == '+') then t[1..] else t
  }

  /** A minus sign followed by anything has no blank to skip. */
  lemma NegativeTextShape(digits: string)
    ensures var t := "-" + digits;
      TrimStart(t) == t && Unsigned(t) == digits && t[0] == '-'
  {
    var t := "-" + digits;
    assert t[0] == '-' && !IsWhitespace(t[0]);
    assert TrimStart(t) == t;
  }

  predicate IsHexDigit(c: char) {
    IsDigit(c) || ('a' <= c <= 'f') || ('A' <= c <= 'F')
  }

  function HexDigitValue(c: char): nat
    requires IsHexDigit(c)
  {
    if IsDigit(c) then DigitValue(c)
    else if 'a' <= c <= 'f' then c as int - 'a' as int + 10
    else c as int - 'A' as int + 10
  }

  /** The value of a run of hexadecimal digits. */
  function HexDigitsValue(hs: string): nat
    requires forall i :: 0 <= i < |hs| ==> IsHexDigit(hs[i])
  {
    if hs == [] then 0 else HexDigitsValue(hs[..|hs| - 1]) * 16 + HexDigitValue(hs[|hs| - 1])
  }

  /** The longest prefix made of hexadecimal digits. */
  function HexPrefix(s: string): (r: string)
    ensures |r| <= |s| && r == s[..|r|]
    ensures forall i :: 0 <= i < |r| ==> IsHexDigit(r[i])
    ensures |r| == |s| || !IsHexDigit(s[|r|])
  {
    if s != [] && IsHexDigit(s[0]) then [s[0]] + HexPrefix(s[1..]) else []
  }

  /** The `0x` or `0X` that makes a radix-less `parseInt` read hexadecimal. */
  predicate HexPrefixed(body: string) {
    |body| >= 2 && body[0] == '0' && (body[1] == 'x' || body[1] == 'X')
  }

  /** The hexadecimal digits after `0x`, with the sign of `t`. */
  function ParseHex(t: string): Option<int>
    requires HexPrefixed(Unsigned(t))
  {
    var hs := HexPrefix(Unsigned(t)[2..]);
    if hs == [] then None
    else
      var v: int := HexDigitsValue(hs);
      Some(if t[0] == '-' then -v else v)
  }

  /** `parseInt(s)` without a radix: as `parseInt(s, 10)`, except that a
      `0x` or `0X` after the sign switches to hexadecimal digits; a prefix
      with no digit after it is NaN (None). */
  function ParseInt(s: string): Option<int> {
    var t := TrimStart(s);
    if HexPrefixed(Unsigned(t)) then ParseHex(t) else ParseDecimal(s)
  }

  lemma {:induction false} HexPrefixOfHexDigits(s: string)
    requires forall i :: 0 <= i < |s| ==> IsHexDigit(s[i])
    ensures HexPrefix(s) == s
  {
    if s != [] {
      HexPrefixOfHexDigits(s[1..]);
    }
  }

  /** `parseInt(setting || fallback)` for an environment setting: an unset
      or empty setting falls back to the default text. */
  function EnvInt(setting: string, fallback: string): Option<int> {
    ParseInt(if setting == [] then fallback else setting)
  }

  /** A radix-less `parseInt` reads the digits after `0x` in base 16. */
  lemma ParseIntHex(digits: string)
    requires digits != [] && forall i :: 0 <= i < |digits| ==> IsHexDigit(digits[i])
    ensures ParseInt("0x" + digits) == Some(HexDigitsValue(digits))
  {
    HexTextShape(digits);
    HexPrefixOfHexDigits(digits);
  }

  /** `0x` followed by anything has no blank and no sign to skip. */
  lemma HexTextShape(digits: string)
    ensures var t := "0x" + digits;
      TrimStart(t) == t && Unsigned(t) == t && HexPrefixed(t) && t[2..] == digits && t[0] == '0'
  {
    var t := "0x" + digits;
    assert t[0] == '0' && !IsWhitespace(t[0]);
    assert TrimStart(t) == t;
  }

  lemma {:induction false} DigitsValueOfNatToString(n: nat)
    ensures DigitsValue(NatToString(n)) == n
  {
    var r := NatToString(n);
    if n >= 10 {
      DigitsValueOfNatToString(n / 10);
      assert r[..|r| - 1] == NatToString(n / 10);
    }
  }

  lemma {:induction false} DigitPrefixOfDigits(s: string)
    requires forall i :: 0 <= i < |s| ==> IsDigit(s[i])
    ensures DigitPrefix(s) == s
  {
    if s != [] {
      DigitPrefixOfDigits(s[1..]);
    }
  }

  /** Reading back the decimal text of a natural gives the natural again,
      with or without a radix. */
  lemma ParseIntNatToString(n: nat)
    ensures ParseDecimal(NatToString(n)) == Some(n)
    ensures ParseInt(NatToString(n)) == Some(n)
  {
    var r := NatToString(n);
    assert !IsWhitespace(r[0]);
    assert TrimStart(r) == r;
    assert IsDigit(r[0]) && Unsigned(r) == r;
    assert !HexPrefixed(r) by {
      if |r| >= 2 {
        assert IsDigit(r[1]);
      }
    }
    DigitPrefixOfDigits(r);
    DigitsValueOfNatToString(n);
  }
}
