/** The ECMAScript string built-ins the application relies on, over `seq<char>`:
    `trim`, `startsWith`, `split(" ")`, `toUpperCase` (ASCII letters only), `substring(0, n)`,
    `replace(/\s+/g, rep)` and `parseInt(s)` without a radix. */
module JsString {
  import opened Wrappers

  /** ECMAScript WhiteSpace and LineTerminator code points: the set matched by `\s`
      and stripped by `trim` and `parseInt`. */
  predicate IsWhitespace(c: char) {
    || c == ' ' || c == '\t' || c == '\n' || c == '\r' || c == '\U{000B}' || c == '\U{000C}'
    || c == '\U{00A0}' || c == '\U{1680}' || ('\U{2000}' <= c <= '\U{200A}')
    || c == '\U{2028}' || c == '\U{2029}' || c == '\U{202F}' || c == '\U{205F}'
    || c == '\U{3000}' || c == '\U{FEFF}'
  }

  predicate NoWhitespace(s: string) {
    forall i :: 0 <= i < |s| ==> !IsWhitespace(s[i])
  }

  predicate AllWhitespace(s: string) {
    forall i :: 0 <= i < |s| ==> IsWhitespace(s[i])
  }

  /** `s.trimStart()`: the suffix left after the leading white space. */
  function TrimStart(s: string): (r: string)
    ensures |r| <= |s|
    ensures AllWhitespace(s[..|s| - |r|])
    ensures r == [] || !IsWhitespace(r[0])
  {
    if s != [] && IsWhitespace(s[0]) then TrimStart(s[1..]) else s
  }

  /** What `trimStart` keeps is a suffix of its input. */
  lemma {:induction false} TrimStartSuffix(s: string)
    ensures TrimStart(s) == s[|s| - |TrimStart(s)|..]
  {
    if s != [] && IsWhitespace(s[0]) {
      TrimStartSuffix(s[1..]);
    }
  }

  /** `s.trimEnd()`: the prefix left before the trailing white space. */
  function TrimEnd(s: string): (r: string)
    ensures |r| <= |s| && r == s[..|r|]
    ensures AllWhitespace(s[|r|..])
    ensures r == [] || !IsWhitespace(r[|r| - 1])
  {
    if s != [] && IsWhitespace(s[|s| - 1]) then TrimEnd(s[..|s| - 1]) else s
  }

  /** `s.trim()`. */
  function Trim(s: string): string {
    TrimEnd(TrimStart(s))
  }

  /** `s.trim() === ""` holds exactly for the strings made only of white space. */
  lemma TrimEmpty(s: string)
    ensures Trim(s) == "" <==> AllWhitespace(s)
  {
    var t := TrimStart(s);
    TrimStartSuffix(s);
    if Trim(s) == "" {
      assert AllWhitespace(t[0..]);
      assert t == [];
      assert s[..|s|] == s;
    }
  }

  /** A trimmed non-empty string starts and ends with something other than white space. */
  lemma TrimEnds(s: string)
    requires Trim(s) != ""
    ensures !IsWhitespace(Trim(s)[0]) && !IsWhitespace(Trim(s)[|Trim(s)| - 1])
  {
    var t := TrimStart(s);
    assert Trim(s) == t[..|Trim(s)|];
  }

  /** `s.startsWith(p)`. */
  predicate StartsWith(s: string, p: string) {
    |p| <= |s| && s[..|p|] == p
  }

  /** `s.substring(0, n)` for `n >= 0`. */
  function Take(s: string, n: nat): string {
    if n <= |s| then s[..n] else s
  }

  /** `String.prototype.toUpperCase` restricted to ASCII letters. */
  function UpperChar(c: char): char {
    if 'a' <= c <= 'z' then (c as int - 32) as char else c
  }

  function ToUpperAscii(s: string): (r: string)
    ensures |r| == |s|
  {
    if s == [] then [] else [UpperChar(s[0])] + ToUpperAscii(s[1..])
  }

  lemma {:induction false} ToUpperAt(s: string, i: nat)
    requires i < |s|
    ensures ToUpperAscii(s)[i] == UpperChar(s[i])
  {
    if i > 0 { ToUpperAt(s[1..], i - 1); }
  }

  /** `s.split(sep)` for a one-character separator: the pieces between separators, in
      order, with empty pieces kept; there is always at least one piece. */
  function Split(s: string, sep: char): (r: seq<string>)
    ensures |r| >= 1
  {
    if s == [] then [""]
    else if s[0] == sep then [""] + Split(s[1..], sep)
    else var rest := Split(s[1..], sep); [[s[0]] + rest[0]] + rest[1..]
  }

  /** Joining the pieces with the separator gives back the string. */
  function Join(pieces: seq<string>, sep: char): string
    requires |pieces| >= 1
  {
    if |pieces| == 1 then pieces[0] else pieces[0] + [sep] + Join(pieces[1..], sep)
  }

  lemma {:induction false} SplitJoin(s: string, sep: char)
    ensures Join(Split(s, sep), sep) == s
    ensures forall k :: 0 <= k < |Split(s, sep)| ==> sep !in Split(s, sep)[k]
  {
    if s == [] {
    } else if s[0] == sep {
      SplitJoin(s[1..], sep);
      assert s == [sep] + s[1..];
    } else {
      var rest := Split(s[1..], sep);
      SplitJoin(s[1..], sep);
      if |rest| == 1 {
        assert Join(Split(s, sep), sep) == [s[0]] + rest[0];
      } else {
        assert Split(s, sep)[1..] == rest[1..];
        assert Join(rest, sep) == rest[0] + [sep] + Join(rest[1..], sep);
        assert Join(Split(s, sep), sep) == ([s[0]] + rest[0]) + [sep] + Join(rest[1..], sep);
      }
      assert s == [s[0]] + s[1..];
      forall k | 0 <= k < |Split(s, sep)| ensures sep !in Split(s, sep)[k] {
        if k > 0 { assert Split(s, sep)[k] == rest[k]; }
      }
    }
  }

  /** `s.replace(/\s+/g, rep)`: every maximal run of white space becomes one `rep`. */
  function ReplaceWhitespaceRuns(s: string, rep: string): string
    decreases |s|
  {
    if s == [] then []
    else if IsWhitespace(s[0]) then rep + ReplaceWhitespaceRuns(TrimStart(s[1..]), rep)
    else [s[0]] + ReplaceWhitespaceRuns(s[1..], rep)
  }

  /** With a replacement free of white space, the result has none. */
  lemma {:induction false} ReplaceRunsNoWhitespace(s: string, rep: string)
    requires NoWhitespace(rep)
    ensures NoWhitespace(ReplaceWhitespaceRuns(s, rep))
    decreases |s|
  {
    if s == [] {
    } else if IsWhitespace(s[0]) {
      ReplaceRunsNoWhitespace(TrimStart(s[1..]), rep);
    } else {
      ReplaceRunsNoWhitespace(s[1..], rep);
    }
  }

  /** A string without white space is left unchanged. */
  lemma {:induction false} ReplaceRunsIdentity(s: string, rep: string)
    requires NoWhitespace(s)
    ensures ReplaceWhitespaceRuns(s, rep) == s
  {
    if s != [] {
      assert !IsWhitespace(s[0]);
      ReplaceRunsIdentity(s[1..], rep);
      assert s == [s[0]] + s[1..];
    }
  }

  /** One maximal run (`w`, between a white-space-free `a` and a rest `t` that does not start
      with white space) is replaced by exactly one `rep`. */
  lemma {:induction false} ReplaceRunsOneRun(a: string, w: string, t: string, rep: string)
    requires NoWhitespace(a)
    requires w != [] && AllWhitespace(w)
    requires t == [] || !IsWhitespace(t[0])
    ensures ReplaceWhitespaceRuns(a + w + t, rep) == a + rep + ReplaceWhitespaceRuns(t, rep)
  {
    if a == [] {
      assert a + w + t == w + t;
      TrimStartOfRun(w[1..], t);
      assert (w + t)[1..] == w[1..] + t;
    } else {
      assert (a + w + t)[0] == a[0];
      assert (a + w + t)[1..] == a[1..] + w + t;
      ReplaceRunsOneRun(a[1..], w, t, rep);
      assert a == [a[0]] + a[1..];
    }
  }

  lemma {:induction false} TrimStartOfRun(w: string, t: string)
    requires AllWhitespace(w)
    requires t == [] || !IsWhitespace(t[0])
    ensures TrimStart(w + t) == t
  {
    if w != [] {
      assert (w + t)[1..] == w[1..] + t;
      TrimStartOfRun(w[1..], t);
    } else {
      assert w + t == t;
    }
  }

  // ---- parseInt ----

  /** The value of an ASCII digit or letter as a numeral digit (letters count from 10), or -1. */
  function DigitValue(c: char): int {
    if '0' <= c <= '9' then c as int - '0' as int
    else if 'a' <= c <= 'z' then c as int - 'a' as int + 10
    else if 'A' <= c <= 'Z' then c as int - 'A' as int + 10
    else -1
  }

  predicate IsDigit(c: char, radix: int) {
    0 <= DigitValue(c) < radix
  }

  /** The longest prefix of radix digits. */
  function DigitPrefix(s: string, radix: int): (r: string)
    ensures |r| <= |s| && r == s[..|r|]
    ensures forall i :: 0 <= i < |r| ==> IsDigit(r[i], radix)
    ensures |r| == |s| || !IsDigit(s[|r|], radix)
  {
    if s == [] || !IsDigit(s[0], radix) then [] else [s[0]] + DigitPrefix(s[1..], radix)
  }

  /** The numeral's value, most significant digit first. */
  function DigitsValue(ds: string, radix: int): int {
    if ds == [] then 0 else DigitsValue(ds[..|ds| - 1], radix) * radix + DigitValue(ds[|ds| - 1])
  }

  /** The numeral at the start of `u` in `radix`; `None` when `u` does not start with a digit. */
  function Magnitude(u: string, radix: int): Option<int> {
    var digits := DigitPrefix(u, radix);
    if digits == [] then None else Some(DigitsValue(digits, radix))
  }

  /** `0x` or `0X`, which switches `parseInt` without a radix to base 16. */
  predicate HasHexPrefix(u: string) {
    |u| >= 2 && u[0] == '0' && (u[1] == 'x' || u[1] == 'X')
  }

  /** The unsigned part of `parseInt`'s input after the sign. */
  function UnsignedValue(u: string): Option<int> {
    if HasHexPrefix(u) then Magnitude(u[2..], 16) else Magnitude(u, 10)
  }

  /** `parseInt(s)`: skip leading white space, take one optional sign, read a `0x`/`0X`
      prefix as radix 16 and otherwise radix 10, then the longest run of digits;
      `None` stands for NaN (no digit at all). */
  function ParseInt(s: string): Option<int> {
    var t := TrimStart(s);
    if t != [] && t[0] == '-' then
      match UnsignedValue(t[1..])
      case None => None
      case Some(v) => Some(-v)
    else if t != [] && t[0] == '+' then UnsignedValue(t[1..])
    else UnsignedValue(t)
  }

  /** The decimal numeral of `n` (`String(n)` for a non-negative integer). */
  function NatToString(n: nat): (r: string)
    ensures |r| >= 1
    ensures forall i :: 0 <= i < |r| ==> IsDigit(r[i], 10)
  {
    if n < 10 then [('0' as int + n) as char]
    else NatToString(n / 10) + [('0' as int + n % 10) as char]
  }

  lemma {:induction false} NatToStringValue(n: nat)
    ensures DigitsValue(NatToString(n), 10) == n
  {
    if n >= 10 {
      NatToStringValue(n / 10);
      var s := NatToString(n);
      assert s[..|s| - 1] == NatToString(n / 10);
    }
  }

  lemma {:induction false} DigitPrefixOfDigits(s: string, radix: int)
    requires forall i :: 0 <= i < |s| ==> IsDigit(s[i], radix)
    ensures DigitPrefix(s, radix) == s
  {
    if s != [] {
      assert IsDigit(s[0], radix);
      DigitPrefixOfDigits(s[1..], radix);
      assert s == [s[0]] + s[1..];
    }
  }

  /** `String(i)` for an integer: a `-` before the numeral of a negative value. */
  function IntToString(i: int): (r: string)
    ensures |r| >= 1
  {
    if i < 0 then "-" + NatToString(-i) else NatToString(i)
  }

  /** `parseInt` reads back `String(i)` for every integer. */
  lemma IntToStringRoundTrip(i: int)
    ensures ParseInt(IntToString(i)) == Some(i)
  {
    if i < 0 {
      var n: nat := -i;
      ParseIntRoundTrip(n);
      assert IntToString(i) == "-" + NatToString(n);
    } else {
      ParseIntRoundTrip(i);
    }
  }

  /** A decimal numeral not shaped like `0x…`, after an optional `-`. */
  lemma {:induction false} ParseIntDecimal(u: string)
    requires u != [] && IsDigit(u[0], 10) && !HasHexPrefix(u)
    ensures ParseInt(u) == Some(DigitsValue(DigitPrefix(u, 10), 10))
    ensures ParseInt("-" + u) == Some(-DigitsValue(DigitPrefix(u, 10), 10))
  {
    assert !IsWhitespace(u[0]);
    assert TrimStart(u) == u;
    var m := "-" + u;
    assert m[0] == '-' && !IsWhitespace(m[0]);
    assert TrimStart(m) == m;
    assert m[1..] == u;
  }

  /** `parseInt` reads back the decimal numeral of any integer. */
  lemma ParseIntRoundTrip(n: nat)
    ensures ParseInt(NatToString(n)) == Some(n)
    ensures ParseInt("-" + NatToString(n)) == Some(-(n as int))
  {
    var s := NatToString(n);
    NatToStringValue(n);
    UnsignedDigits(s, n);
    ParseUnsigned(s, n);
    ParseMinus(s, n);
  }

  /** Input that starts with a digit is read without a sign. */
  lemma ParseUnsigned(u: string, v: int)
    requires u != [] && IsDigit(u[0], 10)
    requires UnsignedValue(u) == Some(v)
    ensures ParseInt(u) == Some(v)
  {
    assert TrimStart(u) == u;
  }

  /** A `-` right before a digit negates the unsigned reading of what follows. */
  lemma ParseMinus(u: string, v: int)
    requires u != [] && IsDigit(u[0], 10)
    requires UnsignedValue(u) == Some(v)
    ensures ParseInt("-" + u) == Some(-v)
  {
    var m := "-" + u;
    assert TrimStart(m) == m;
    assert m[1..] == u;
  }

  lemma UnsignedDigits(s: string, n: int)
    requires |s| >= 1
    requires forall i :: 0 <= i < |s| ==> IsDigit(s[i], 10)
    requires DigitsValue(s, 10) == n
    ensures UnsignedValue(s) == Some(n)
  {
    NotHexPrefixed(s);
    DigitPrefixOfDigits(s, 10);
  }

  lemma NotHexPrefixed(s: string)
    requires forall i :: 0 <= i < |s| ==> IsDigit(s[i], 10)
    ensures !HasHexPrefix(s)
  {
    if |s| >= 2 { assert IsDigit(s[1], 10); }
  }

  /** Concrete readings: trailing junk is ignored, a lone sign or no digit is NaN, hex is honoured. */
  lemma ParseIntExamples()
    ensures ParseInt("12abc") == Some(12)
    ensures ParseInt("") == None
    ensures ParseInt("-5") == Some(-5)
    ensures ParseInt("  42") == Some(42)
    ensures ParseInt("0x1A") == Some(26)
    ensures ParseInt("abc") == None
    ensures ParseInt("-") == None
  {
    ParseTrailingJunk();
    ParseNegative();
    ParseLeadingSpace();
    ParseHex();
    ParseNoDigits();
  }

  lemma ParseTrailingJunk()
    ensures ParseInt("12abc") == Some(12)
  {
    assert DigitPrefix("12abc", 10) == "12" by {
      assert "12abc"[1..] == "2abc";
      assert "2abc"[1..] == "abc";
    }
    assert DigitsValue("12", 10) == 12 by { assert "12"[..1] == "1"; }
    ParseIntDecimal("12abc");
  }

  lemma ParseNegative()
    ensures ParseInt("-5") == Some(-5)
  {
    assert DigitPrefix("5", 10) == "5" by { assert "5"[1..] == ""; }
    ParseIntDecimal("5");
    assert "-" + "5" == "-5";
  }

  lemma ParseLeadingSpace()
    ensures ParseInt("  42") == Some(42)
  {
    assert TrimStart("  42") == "42" by {
      assert "  42"[1..] == " 42";
      assert " 42"[1..] == "42";
    }
    assert DigitPrefix("42", 10) == "42" by {
      assert "42"[1..] == "2";
      assert "2"[1..] == "";
    }
    assert DigitsValue("42", 10) == 42 by { assert "42"[..1] == "4"; }
  }

  lemma ParseHex()
    ensures ParseInt("0x1A") == Some(26)
  {
    assert TrimStart("0x1A") == "0x1A";
    assert HasHexPrefix("0x1A");
    assert "0x1A"[2..] == "1A";
    assert DigitPrefix("1A", 16) == "1A" by {
      assert "1A"[1..] == "A";
      assert "A"[1..] == "";
    }
    assert DigitsValue("1A", 16) == 26 by { assert "1A"[..1] == "1"; }
  }

  lemma ParseNoDigits()
    ensures ParseInt("") == None
    ensures ParseInt("abc") == None
    ensures ParseInt("-") == None
  {
    ParseLetters();
    ParseLoneSign();
  }

  lemma ParseLetters()
    ensures ParseInt("abc") == None
  {
    var t := TrimStart("abc");
    assert t == "abc";
    assert t[0] == 'a';
    assert !HasHexPrefix(t);
    assert DigitValue('a') == 10;
    assert DigitPrefix(t, 10) == [];
  }

  lemma ParseLoneSign()
    ensures ParseInt("-") == None
  {
    LoneSignTrimmed();
    EmptyUnsigned();
    assert "-"[1..] == "";
  }

  lemma LoneSignTrimmed()
    ensures TrimStart("-") == "-"
  {
    assert !IsWhitespace('-');
  }

  lemma EmptyUnsigned()
    ensures UnsignedValue("") == None
  {
  }
}
