/**
 * The Python `str` operations the bot relies on: `strip()`, `split(sep)`,
 * `startswith`, `str(n)` for an integer and `int(s)` for a string.
 */
module PyStr {
  import opened Wrappers

  /** Python's `str.isspace()` for a single character. */
  predicate IsSpace(c: char) {
    var n := c as int;
    (9 <= n <= 13) || (28 <= n <= 32) || n == 0x85 || n == 0xA0 || n == 0x1680
    || (0x2000 <= n <= 0x200A) || n == 0x2028 || n == 0x2029 || n == 0x202F
    || n == 0x205F || n == 0x3000
  }

  /** `s.lstrip()`: drop white space from the front. */
  function TrimStart(s: string): string {
    if s != [] && IsSpace(s[0]) then TrimStart(s[1..]) else s
  }

  /** `s.rstrip()`: drop white space from the back. */
  function TrimEnd(s: string): string {
    if s != [] && IsSpace(s[|s| - 1]) then TrimEnd(s[..|s| - 1]) else s
  }

  /** `s.strip()`. */
  function Strip(s: string): string {
    TrimEnd(TrimStart(s))
  }

  /** `lstrip` keeps the longest suffix that does not start with white space. */
  lemma {:induction false} TrimStartSpec(s: string)
    ensures var r := TrimStart(s);
      && |r| <= |s| && r == s[|s| - |r|..]
      && (forall k :: 0 <= k < |s| - |r| ==> IsSpace(s[k]))
      && (r != [] ==> !IsSpace(r[0]))
    decreases |s|
  {
    if s != [] && IsSpace(s[0]) {
      TrimStartSpec(s[1..]);
      var r := TrimStart(s);
      assert s[1..][|s| - 1 - |r|..] == s[|s| - |r|..];
      forall k | 0 <= k < |s| - |r|
        ensures IsSpace(s[k])
      {
        if k > 0 {
          assert s[k] == s[1..][k - 1];
        }
      }
    }
  }

  /** `rstrip` keeps the longest prefix that does not end with white space. */
  lemma {:induction false} TrimEndSpec(s: string)
    ensures var r := TrimEnd(s);
      && |r| <= |s| && r == s[..|r|]
      && (forall k :: |r| <= k < |s| ==> IsSpace(s[k]))
      && (r != [] ==> !IsSpace(r[|r| - 1]))
    decreases |s|
  {
    if s != [] && IsSpace(s[|s| - 1]) {
      var t := s[..|s| - 1];
      TrimEndSpec(t);
      var r := TrimEnd(s);
      assert t[..|r|] == s[..|r|];
      forall k | |r| <= k < |s|
        ensures IsSpace(s[k])
      {
        if k < |s| - 1 {
          assert s[k] == t[k];
        }
      }
    }
  }

  /**
   * `strip` keeps a contiguous piece of `s`, from the end of its leading
   * white space, that neither starts nor ends with white space, and
   * everything it drops on either side is white space.
   */
  lemma StripSpec(s: string)
    ensures var r, i := Strip(s), |s| - |TrimStart(s)|;
      && (r != [] ==> !IsSpace(r[0]) && !IsSpace(r[|r| - 1]))
      && 0 <= i <= |s| - |r| && r == s[i..i + |r|]
      && (forall k :: 0 <= k < i ==> IsSpace(s[k]))
      && (forall k :: i + |r| <= k < |s| ==> IsSpace(s[k]))
  {
    StripSlice(s);
    StripEnds(s);
    StripLeading(s);
    StripTrailing(s);
  }

  lemma StripSlice(s: string)
    ensures var r, i := Strip(s), |s| - |TrimStart(s)|;
      0 <= i <= |s| - |r| && r == s[i..i + |r|]
  {
    var t := TrimStart(s);
    var r := TrimEnd(t);
    TrimStartSpec(s);
    TrimEndSpec(t);
    SliceOfSlice(s, |s| - |t|, |r|);
  }

  lemma StripEnds(s: string)
    ensures var r := Strip(s); r != [] ==> !IsSpace(r[0]) && !IsSpace(r[|r| - 1])
  {
    var t := TrimStart(s);
    var r := TrimEnd(t);
    TrimStartSpec(s);
    TrimEndSpec(t);
    if r != [] {
      assert r[0] == t[0];
    }
  }

  lemma StripLeading(s: string)
    ensures forall k :: 0 <= k < |s| - |TrimStart(s)| ==> IsSpace(s[k])
  {
    TrimStartSpec(s);
  }

  lemma StripTrailing(s: string)
    ensures |Strip(s)| <= |TrimStart(s)| <= |s|
    ensures forall k :: |s| - |TrimStart(s)| + |Strip(s)| <= k < |s| ==> IsSpace(s[k])
  {
    var t := TrimStart(s);
    var i := |s| - |t|;
    TrimStartSpec(s);
    TrimEndSpec(t);
    forall k | i + |Strip(s)| <= k < |s|
      ensures IsSpace(s[k])
    {
      assert s[k] == t[k - i];
    }
  }

  lemma SliceOfSlice<T>(s: seq<T>, i: nat, n: nat)
    requires i + n <= |s|
    ensures s[i..][..n] == s[i..i + n]
  {
  }

  /** A string that neither starts nor ends with white space is its own strip. */
  lemma StripUnchanged(s: string)
    requires s != [] ==> !IsSpace(s[0]) && !IsSpace(s[|s| - 1])
    ensures Strip(s) == s
  {
  }

  lemma StripIdempotent(s: string)
    ensures Strip(Strip(s)) == Strip(s)
  {
    StripSpec(s);
    StripUnchanged(Strip(s));
  }

  /** The characters before the first white space. */
  function TakeWord(s: string): string {
    if s == [] || IsSpace(s[0]) then [] else [s[0]] + TakeWord(s[1..])
  }

  /** The word is the longest prefix free of white space. */
  lemma {:induction false} TakeWordSpec(s: string)
    ensures var w := TakeWord(s);
      && |w| <= |s| && w == s[..|w|]
      && (forall k :: 0 <= k < |w| ==> !IsSpace(w[k]))
      && (|w| < |s| ==> IsSpace(s[|w|]))
    decreases |s|
  {
    if s != [] && !IsSpace(s[0]) {
      TakeWordSpec(s[1..]);
      var w := TakeWord(s);
      assert w[1..] == TakeWord(s[1..]);
      forall k | 0 <= k < |w|
        ensures !IsSpace(w[k])
      {
        if k > 0 {
          assert w[k] == w[1..][k - 1];
        }
      }
    }
  }

  /** A word free of white space, followed by white space or nothing, is what `TakeWord` takes. */
  lemma {:induction false} TakeWordOfWord(w: string, rest: string)
    requires forall k :: 0 <= k < |w| ==> !IsSpace(w[k])
    requires rest == [] || IsSpace(rest[0])
    ensures TakeWord(w + rest) == w
    decreases |w|
  {
    if w == [] {
      assert w + rest == rest;
    } else {
      assert (w + rest)[0] == w[0];
      assert (w + rest)[1..] == w[1..] + rest;
      TakeWordOfWord(w[1..], rest);
      assert [w[0]] + w[1..] == w;
    }
  }

  /** `s.split(maxsplit=1)[0]`: the first white-space separated word, or empty for a blank text. */
  function FirstWord(s: string): string {
    TakeWord(TrimStart(s))
  }

  /** `s.startswith(prefix)`. */
  predicate StartsWith(s: string, prefix: string) {
    |prefix| <= |s| && s[..|prefix|] == prefix
  }

  /** The inverse of `Split`: the parts glued together with `sep` between neighbours. */
  function Join(parts: seq<string>, sep: char): string
    requires |parts| >= 1
  {
    if |parts| == 1 then parts[0] else parts[0] + [sep] + Join(parts[1..], sep)
  }

  /**
   * `s.split(sep)` for a one-character separator: the pieces between consecutive
   * separators, empty pieces included, so that there is always at least one.
   */
  function Split(s: string, sep: char): (parts: seq<string>)
    ensures |parts| >= 1
    ensures forall p :: p in parts ==> sep !in p
    ensures Join(parts, sep) == s
  {
    if s == [] then [[]]
    else
      var rest := Split(s[1..], sep);
      if s[0] == sep then
        assert ([[]] + rest)[1..] == rest;
        [[]] + rest
      else
        var parts := [[s[0]] + rest[0]] + rest[1..];
        assert parts[1..] == rest[1..];
        assert |rest| > 1 ==> Join(rest, sep) == rest[0] + [sep] + Join(rest[1..], sep);
        assert s == [s[0]] + s[1..];
        parts
  }

  lemma {:induction false} SplitPiece(w: string, sep: char)
    requires sep !in w
    ensures Split(w, sep) == [w]
  {
    if w != [] {
      SplitPiece(w[1..], sep);
      assert [w[0]] + w[1..] == w;
    }
  }

  lemma {:induction false} SplitCons(w: string, sep: char, t: string)
    requires sep !in w
    ensures Split(w + [sep] + t, sep) == [w] + Split(t, sep)
  {
    if w == [] {
      assert (w + [sep] + t)[1..] == t;
    } else {
      assert (w + [sep] + t)[1..] == w[1..] + [sep] + t;
      SplitCons(w[1..], sep, t);
      assert [w[0]] + w[1..] == w;
    }
  }

  /** Splitting a join of separator-free parts gives those parts back. */
  lemma {:induction false} SplitJoin(parts: seq<string>, sep: char)
    requires |parts| >= 1
    requires forall p :: p in parts ==> sep !in p
    ensures Split(Join(parts, sep), sep) == parts
  {
    if |parts| == 1 {
      SplitPiece(parts[0], sep);
    } else {
      SplitJoin(parts[1..], sep);
      SplitCons(parts[0], sep, Join(parts[1..], sep));
      assert [parts[0]] + parts[1..] == parts;
    }
  }

  predicate IsDigit(c: char) {
    '0' <= c <= '9'
  }

  predicate AllDigits(s: string) {
    forall k :: 0 <= k < |s| ==> IsDigit(s[k])
  }

  function DigitChar(d: nat): (c: char)
    requires d < 10
    ensures IsDigit(c)
  {
    ('0' as int + d) as char
  }

  /** The number an ASCII digit stands for. */
  function DigitValue(c: char): (d: nat)
    requires IsDigit(c)
    ensures d < 10
  {
    c as int - '0' as int
  }

  /** `str(n)` for a natural number: its decimal digits, the most significant first, without leading zeros. */
  function NatToString(n: nat): (s: string)
    ensures |s| >= 1 && AllDigits(s)
    ensures s[0] == '0' ==> n == 0
  {
    if n < 10 then [DigitChar(n)] else NatToString(n / 10) + [DigitChar(n % 10)]
  }

  /** `str(n)` (as used by an f-string) for any integer. */
  function IntToString(n: int): (s: string)
    ensures |s| >= 1
    ensures s[0] == '-' <==> n < 0
    ensures forall k :: 0 <= k < |s| ==> IsDigit(s[k]) || (k == 0 && s[k] == '-')
  {
    if n < 0 then "-" + NatToString(-n) else NatToString(n)
  }

  /** The value of a string of decimal digits, the most significant first. */
  function DigitsValue(s: string): nat
    requires AllDigits(s)
  {
    if s == [] then 0 else DigitsValue(s[..|s| - 1]) * 10 + DigitValue(s[|s| - 1])
  }

  /**
   * `int(s)`: surrounding white space is ignored, then an optional sign and
   * one or more decimal digits; None where Python raises ValueError.
   */
  function ParseInt(s: string): Option<int> {
    var t := Strip(s);
    var signed := |t| > 0 && (t[0] == '-' || t[0] == '+');
    var body := if signed then t[1..] else t;
    if body != [] && AllDigits(body) then
      var magnitude: int := DigitsValue(body);
      Some(if signed && t[0] == '-' then -magnitude else magnitude)
    else
      None
  }

  lemma {:induction false} DigitsValueOfNat(n: nat)
    ensures DigitsValue(NatToString(n)) == n
  {
    if n >= 10 {
      var s := NatToString(n);
      assert s[..|s| - 1] == NatToString(n / 10);
      DigitsValueOfNat(n / 10);
    }
  }

  /** `int(str(n)) == n` for every integer. */
  lemma ParseIntToString(n: int)
    ensures ParseInt(IntToString(n)) == Some(n)
  {
    if n < 0 {
      ParseIntNegated(NatToString(-n));
      DigitsValueOfNat(-n);
    } else {
      ParseIntUnsigned(NatToString(n));
      DigitsValueOfNat(n);
    }
  }

  /** A plain string of digits is read as its value. */
  lemma ParseIntUnsigned(digits: string)
    requires digits != [] && AllDigits(digits)
    ensures ParseInt(digits) == Some(DigitsValue(digits))
  {
    assert !IsSpace(digits[0]) && !IsSpace(digits[|digits| - 1]);
    StripUnchanged(digits);
    assert digits[0] != '-' && digits[0] != '+';
  }

  /** A minus sign followed by digits is read as the negated value. */
  lemma ParseIntNegated(digits: string)
    requires digits != [] && AllDigits(digits)
    ensures ParseInt("-" + digits) == Some(-(DigitsValue(digits) as int))
  {
    var s := "-" + digits;
    assert s[0] == '-' && s[|s| - 1] == digits[|digits| - 1];
    StripUnchanged(s);
    assert s[1..] == digits;
  }
}
