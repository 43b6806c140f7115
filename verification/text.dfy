/** The one optional-value wrapper the model uses (Python's `None`). */
module Wrappers {
  datatype Option<T> = None | Some(value: T)
}

/**
  String helpers with Python's semantics, as the core uses them:
  `str.strip`, `str.split`, `str.startswith`, ASCII `lower`/`upper`,
  `int(str)` and the integer and fixed-point fields of f-strings.
*/
module Text {
  import opened Wrappers

  // ---------------------------------------------------------------- whitespace

  /** The characters for which Python's `str.isspace` holds (and which `str.strip` removes). */
  predicate IsSpace(c: char) {
    c == ' ' || ('\t' <= c <= '\r') || ('\U{1c}' <= c <= '\U{1f}') || c == '\U{85}' || c == '\U{a0}'
    || c == '\U{1680}' || ('\U{2000}' <= c <= '\U{200a}') || c == '\U{2028}' || c == '\U{2029}'
    || c == '\U{202f}' || c == '\U{205f}' || c == '\U{3000}'
  }

  /** Neither end of `s` is whitespace. */
  predicate Trimmed(s: string) {
    s == [] || (!IsSpace(s[0]) && !IsSpace(s[|s| - 1]))
  }

  /** The first index at or after `i` that is not whitespace (`|s|` if there is none). */
  function SkipSpace(s: string, i: nat): (k: nat)
    requires i <= |s|
    ensures i <= k <= |s|
    ensures k < |s| ==> !IsSpace(s[k])
    ensures forall m :: i <= m < k ==> IsSpace(s[m])
    decreases |s| - i
  {
    if i == |s| || !IsSpace(s[i]) then i else SkipSpace(s, i + 1)
  }

  /** One past the last index before `j` that is not whitespace (`0` if there is none). */
  function SkipSpaceBack(s: string, j: nat): (k: nat)
    requires j <= |s|
    ensures k <= j
    ensures k > 0 ==> !IsSpace(s[k - 1])
    ensures forall m :: k <= m < j ==> IsSpace(s[m])
  {
    if j == 0 || !IsSpace(s[j - 1]) then j else SkipSpaceBack(s, j - 1)
  }

  /**
    Python's `s.strip()`: `s` without its leading and trailing whitespace
    (empty when `s` is all whitespace).
  */
  function Strip(s: string): (r: string)
    ensures Trimmed(r)
    ensures |r| <= |s|
  {
    var a, b := SkipSpace(s, 0), SkipSpaceBack(s, |s|);
    if a < b then s[a..b] else ""
  }

  /** Every character of `t` is whitespace. */
  predicate AllSpace(t: string) {
    forall k :: 0 <= k < |t| ==> IsSpace(t[k])
  }

  /**
    What `strip` keeps is a slice of `s` with only whitespace before and after it;
    together with `Trimmed` this leaves exactly one possible result.
  */
  lemma StripShape(s: string)
    ensures exists i, j :: 0 <= i <= j <= |s| && Strip(s) == s[i..j] && AllSpace(s[..i]) && AllSpace(s[j..])
  {
    var a, b := SkipSpace(s, 0), SkipSpaceBack(s, |s|);
    if a < b {
      assert Strip(s) == s[a..b] && AllSpace(s[..a]) && AllSpace(s[b..]);
    } else {
      assert Strip(s) == s[a..a] && AllSpace(s[..a]) && AllSpace(s[a..]);
    }
  }

  /** A string with nothing to strip is left alone. */
  lemma StripTrimmed(s: string)
    requires Trimmed(s)
    ensures Strip(s) == s
  {
    if s != [] {
      assert SkipSpace(s, 0) == 0 && SkipSpaceBack(s, |s|) == |s|;
      assert s[0..|s|] == s;
    }
  }

  lemma StripIdempotent(s: string)
    ensures Strip(Strip(s)) == Strip(s)
  {
    StripTrimmed(Strip(s));
  }

  // ---------------------------------------------------------------- prefixes and case

  /** Python's `s.startswith(p)`. */
  predicate StartsWith(s: string, p: string) {
    |p| <= |s| && s[..|p|] == p
  }

  function LowerChar(c: char): char {
    if 'A' <= c <= 'Z' then (c as int + 32) as char else c
  }

  function UpperChar(c: char): char {
    if 'a' <= c <= 'z' then (c as int - 32) as char else c
  }

  /** `s.lower()` on ASCII letters. */
  function Lower(s: string): (r: string)
    ensures |r| == |s| && forall i :: 0 <= i < |s| ==> r[i] == LowerChar(s[i])
  {
    seq(|s|, i requires 0 <= i < |s| => LowerChar(s[i]))
  }

  /** `s.upper()` on ASCII letters. */
  function Upper(s: string): (r: string)
    ensures |r| == |s| && forall i :: 0 <= i < |s| ==> r[i] == UpperChar(s[i])
  {
    seq(|s|, i requires 0 <= i < |s| => UpperChar(s[i]))
  }

  lemma LowerIdempotent(s: string)
    ensures Lower(Lower(s)) == Lower(s)
  {
  }

  // ---------------------------------------------------------------- splitting

  /** Index of the first `c` in `s`. */
  function IndexOf(s: string, c: char): (r: Option<nat>)
    ensures r.None? <==> c !in s
    ensures r.Some? ==> r.value < |s| && s[r.value] == c && c !in s[..r.value]
  {
    if s == [] then None
    else if s[0] == c then Some(0)
    else match IndexOf(s[1..], c)
      case None => None
      case Some(i) =>
        assert s[..i + 1] == [s[0]] + s[1..][..i];
        Some(i + 1)
  }

  lemma IndexOfConcat(a: string, c: char, b: string)
    requires c !in a
    ensures IndexOf(a + [c] + b, c) == Some(|a|)
  {
    var s := a + [c] + b;
    assert s[|a|] == c;
    assert s[..|a|] == a;
    assert forall i :: 0 <= i < |a| ==> s[i] == a[i];
  }

  /** The pieces joined back with `sep` between them (Python's `sep.join(parts)`). */
  function Join(parts: seq<string>, sep: char): string {
    if parts == [] then ""
    else if |parts| == 1 then parts[0]
    else parts[0] + [sep] + Join(parts[1..], sep)
  }

  /** Python's `s.split(sep)` for a one-character separator: never empty, and joins back to `s`. */
  function Split(s: string, sep: char): (parts: seq<string>)
    ensures |parts| >= 1
    ensures forall p :: p in parts ==> sep !in p
    ensures Join(parts, sep) == s
    decreases |s|
  {
    match IndexOf(s, sep)
    case None => [s]
    case Some(i) =>
      var rest := Split(s[i + 1..], sep);
      assert s == s[..i] + [sep] + s[i + 1..];
      [s[..i]] + rest
  }

  /** Split undoes Join: the pieces of a joined string are the pieces it was joined from. */
  lemma {:induction false} SplitJoin(parts: seq<string>, sep: char)
    requires |parts| >= 1
    requires forall p :: p in parts ==> sep !in p
    ensures Split(Join(parts, sep), sep) == parts
    decreases |parts|
  {
    if |parts| > 1 {
      var rest := Join(parts[1..], sep);
      var s := Join(parts, sep);
      var k := |parts[0]|;
      assert s == parts[0] + [sep] + rest;
      assert IndexOf(s, sep) == Some(k) by {
        IndexOfConcat(parts[0], sep, rest);
      }
      assert s[..k] == parts[0] && s[k + 1..] == rest;
      assert Split(s, sep) == [parts[0]] + Split(rest, sep);
      SplitJoin(parts[1..], sep);
      assert parts == [parts[0]] + parts[1..];
    }
  }

  /** Each line followed by its terminating newline: what `Frames` takes apart. */
  function Terminated(lines: seq<string>): string {
    if lines == [] then "" else lines[0] + "\n" + Terminated(lines[1..])
  }

  lemma TerminatedSnoc(lines: seq<string>, l: string)
    ensures Terminated(lines + [l]) == Terminated(lines) + l + "\n"
  {
    if lines != [] {
      assert (lines + [l])[1..] == lines[1..] + [l];
      TerminatedSnoc(lines[1..], l);
    } else {
      assert [l][1..] == [];
    }
  }

  /**
    Newline framing of a receive buffer: the complete lines in order, and the
    unterminated remainder that stays buffered.
  */
  function Frames(s: string): (r: (seq<string>, string))
    ensures '\n' !in r.1
    ensures forall l :: l in r.0 ==> '\n' !in l
    decreases |s|
  {
    var k := IndexOf(s, '\n');
    if k.None? then ([], s)
    else
      var rest := Frames(s[k.value + 1..]);
      ([s[..k.value]] + rest.0, rest.1)
  }

  /** The complete lines, each with its newline, followed by the remainder rebuild the framed text. */
  lemma {:induction false} FramesRebuild(s: string)
    ensures Terminated(Frames(s).0) + Frames(s).1 == s
    decreases |s|
  {
    var k := IndexOf(s, '\n');
    if k.Some? {
      var rest := Frames(s[k.value + 1..]);
      FramesRebuild(s[k.value + 1..]);
      FrameStep(s, k.value, rest.0, rest.1);
    }
  }

  /** One more complete line in front of a framed tail. */
  lemma FrameStep(s: string, i: nat, lines: seq<string>, rest: string)
    requires i < |s| && s[i] == '\n' && '\n' !in s[..i]
    requires Terminated(lines) + rest == s[i + 1..]
    requires forall m :: m in lines ==> '\n' !in m
    ensures Terminated([s[..i]] + lines) + rest == s
    ensures forall m :: m in [s[..i]] + lines ==> '\n' !in m
  {
    TerminatedCons(s[..i], lines);
    assert s == s[..i] + "\n" + s[i + 1..];
  }

  lemma TerminatedCons(l: string, lines: seq<string>)
    ensures Terminated([l] + lines) == l + "\n" + Terminated(lines)
  {
    assert ([l] + lines)[1..] == lines;
  }

  /** Framing is unique: a buffer built from newline-free lines and remainder frames back into exactly them. */
  lemma {:induction false} FramesOfTerminated(lines: seq<string>, rest: string)
    requires forall l :: l in lines ==> '\n' !in l
    requires '\n' !in rest
    ensures Frames(Terminated(lines) + rest) == (lines, rest)
    decreases |lines|
  {
    if lines == [] {
      assert Terminated(lines) + rest == rest;
    } else {
      var tail := Terminated(lines[1..]) + rest;
      var s := Terminated(lines) + rest;
      var k := |lines[0]|;
      assert s == lines[0] + ['\n'] + tail;
      assert IndexOf(s, '\n') == Some(k) by {
        IndexOfConcat(lines[0], '\n', tail);
      }
      assert s[..k] == lines[0] && s[k + 1..] == tail;
      assert Frames(s) == ([lines[0]] + Frames(tail).0, Frames(tail).1);
      FramesOfTerminated(lines[1..], rest);
      assert lines == [lines[0]] + lines[1..];
    }
  }

  /** The strings one after another (what a socket delivers for a series of writes or reads). */
  function Concat(parts: seq<string>): string {
    if parts == [] then "" else Concat(parts[..|parts| - 1]) + parts[|parts| - 1]
  }

  // ---------------------------------------------------------------- integers

  predicate IsDigit(c: char) {
    '0' <= c <= '9'
  }

  predicate AllDigits(s: string) {
    forall i :: 0 <= i < |s| ==> IsDigit(s[i])
  }

  /** The value of a decimal digit string, most significant digit first. */
  function DigitsValue(s: string): nat
    requires AllDigits(s)
  {
    if s == [] then 0 else DigitsValue(s[..|s| - 1]) * 10 + (s[|s| - 1] as int - '0' as int)
  }

  /**
    Python's `int(s)` on a string: surrounding whitespace, an optional sign,
    then at least one decimal digit; `None` where Python raises ValueError.
  */
  function ParseInt(s: string): Option<int> {
    ParseSigned(Strip(s))
  }

  /** An optional sign, then at least one decimal digit, nothing else. */
  function ParseSigned(t: string): Option<int> {
    if t == [] then None
    else if t[0] == '-' || t[0] == '+' then
      if |t| > 1 && AllDigits(t[1..]) then
        Some(if t[0] == '-' then -(DigitsValue(t[1..]) as int) else DigitsValue(t[1..]))
      else None
    else if AllDigits(t) then Some(DigitsValue(t))
    else None
  }

  function DigitChar(d: nat): (c: char)
    requires d < 10
    ensures IsDigit(c) && c as int - '0' as int == d
  {
    ('0' as int + d) as char
  }

  /** Decimal digits of `n`, no leading zero: Python's `str(n)` for `n >= 0`. */
  function NatToString(n: nat): (s: string)
    ensures |s| >= 1 && AllDigits(s)
    ensures DigitsValue(s) == n
    ensures |s| > 1 ==> s[0] != '0'
  {
    if n < 10 then [DigitChar(n)]
    else
      var h := NatToString(n / 10);
      var s := h + [DigitChar(n % 10)];
      assert s[..|s| - 1] == h;
      s
  }

  /** Python's `str(n)`. */
  function IntToString(n: int): (s: string)
    ensures |s| >= 1
  {
    if n < 0 then "-" + NatToString(-n) else NatToString(n)
  }

  lemma {:induction false} DigitsTrimmed(s: string)
    requires |s| >= 1 && AllDigits(s)
    ensures Trimmed(s) && Strip(s) == s
  {
    StripTrimmed(s);
  }

  /** `int()` of a minus sign followed by digits is the negated digit value. */
  lemma ParseNegative(t: string)
    requires |t| > 1 && t[0] == '-' && AllDigits(t[1..])
    ensures ParseInt(t) == Some(-(DigitsValue(t[1..]) as int))
  {
    assert Strip(t) == t by {
      assert Trimmed(t) by {
        assert t[|t| - 1] == t[1..][|t| - 2] && IsDigit(t[1..][|t| - 2]);
      }
      StripTrimmed(t);
    }
  }

  /** `int()` of a digit string is its value. */
  lemma ParseDigits(d: string)
    requires |d| >= 1 && AllDigits(d)
    ensures ParseInt(d) == Some(DigitsValue(d) as int)
  {
    DigitsTrimmed(d);
    assert d[0] != '-' && d[0] != '+' by { assert IsDigit(d[0]); }
  }

  /** Printing an integer and reading it back with `int()` gives the same integer. */
  lemma ParseIntToString(n: int)
    ensures ParseInt(IntToString(n)) == Some(n)
  {
    if n < 0 {
      var t := IntToString(n);
      assert t[1..] == NatToString(-n);
      ParseNegative(t);
    } else {
      ParseDigits(NatToString(n));
    }
  }

  function Zeros(k: nat): (s: string)
    ensures |s| == k && forall i :: 0 <= i < k ==> s[i] == '0'
  {
    if k == 0 then "" else "0" + Zeros(k - 1)
  }

  /** Python's `f"{n:0<width>}"` for an integer: the sign, then zeros, then the digits, at least `width` wide. */
  function PadInt(n: int, width: nat): (s: string)
    ensures |s| >= width
  {
    var sign := if n < 0 then "-" else "";
    var digits := NatToString(if n < 0 then -n else n);
    var fill := if width > |sign| + |digits| then width - |sign| - |digits| else 0;
    sign + Zeros(fill) + digits
  }

  /** Python's `int(x)` on a float: truncation toward zero. */
  function Trunc(x: real): (r: int)
    ensures x >= 0.0 ==> r as real <= x < r as real + 1.0
    ensures x < 0.0 ==> r as real - 1.0 < x <= r as real
  {
    if x >= 0.0 then x.Floor else -((-x).Floor)
  }

  /**
    `x` rounded to hundredths and printed with two decimals, zero-padded after the
    sign to `width` characters (Python's `f"{x:0<width>.2f}"`); ties round up in magnitude.
  */
  function Fixed2(x: real, width: nat): (s: string)
    ensures |s| >= width && |s| > 0 && IsDigit(s[|s| - 1])
  {
    var sign := if x < 0.0 then "-" else "";
    var hundredths := ((if x < 0.0 then -x else x) * 100.0 + 0.5).Floor;
    var whole := NatToString(hundredths / 100);
    var frac := [DigitChar((hundredths % 100) / 10), DigitChar(hundredths % 10)];
    var body := whole + "." + frac;
    var fill := if width > |sign| + |body| then width - |sign| - |body| else 0;
    sign + Zeros(fill) + body
  }
}
