/**
 * Characters and strings as the form validators use them: ASCII character classes (`\d`,
 * `\w`, `[a-z]`), the whitespace set of `trim()` and `\s`, the string methods
 * `includes`, `startsWith`, `split(c)[0]`, `replace(/\D/g, '')` and `toLowerCase()`, and
 * `length`. A Dafny string is a sequence of Unicode scalar values while JavaScript stores
 * UTF-16 code units, so `length` is `Utf16Length`, not `|s|`.
 */
module Text {

  predicate IsDigit(c: char) { '0' <= c <= '9' }

  predicate IsLower(c: char) { 'a' <= c <= 'z' }

  predicate IsUpper(c: char) { 'A' <= c <= 'Z' }

  predicate IsAlnum(c: char) { IsLower(c) || IsUpper(c) || IsDigit(c) }

  /** `\w` without the `u` flag: `[A-Za-z0-9_]`. */
  predicate IsWordChar(c: char) { IsAlnum(c) || c == '_' }

  /**
   * The characters `trim()` removes and `\s` matches: the ECMAScript WhiteSpace and
   * LineTerminator code points, with the Unicode space separators (category Zs) listed.
   */
  predicate IsSpace(c: char) {
    c == '\t' || c == '\n' || c == '\U{0B}' || c == '\U{0C}' || c == '\r' || c == ' '
    || c == '\U{A0}' || c == '\U{1680}' || ('\U{2000}' <= c <= '\U{200A}')
    || c == '\U{2028}' || c == '\U{2029}' || c == '\U{202F}' || c == '\U{205F}'
    || c == '\U{3000}' || c == '\U{FEFF}'
  }

  predicate AllDigits(s: string) { forall i | 0 <= i < |s| :: IsDigit(s[i]) }

  /** Empty or made of whitespace only. */
  predicate IsBlank(s: string) { forall i | 0 <= i < |s| :: IsSpace(s[i]) }

  /** `s.startsWith(prefix)` */
  predicate StartsWith(s: string, prefix: string) {
    |prefix| <= |s| && s[..|prefix|] == prefix
  }

  /** `t` occurs in `s` starting at index `k`. */
  predicate OccursAt(s: string, t: string, k: int) {
    0 <= k && k + |t| <= |s| && s[k..k + |t|] == t
  }

  /** `s.includes(t)` */
  predicate Contains(s: string, t: string) {
    exists k | 0 <= k <= |s| - |t| :: OccursAt(s, t, k)
  }

  /** `s.replace(/\D/g, '')`: the digits of `s`, in order. */
  function DigitsOnly(s: string): (r: string)
    ensures AllDigits(r) && |r| <= |s|
    decreases |s|
  {
    if s == [] then []
    else if IsDigit(s[0]) then [s[0]] + DigitsOnly(s[1..])
    else DigitsOnly(s[1..])
  }

  /** On one character the filter keeps a digit and drops anything else. */
  lemma DigitsOnlyOneChar(c: char)
    ensures DigitsOnly([c]) == if IsDigit(c) then [c] else []
  {
    assert [c][1..] == [];
  }

  /** Filtering distributes over concatenation: together with the one-character cases this determines DigitsOnly. */
  lemma {:induction false} DigitsOnlyAppend(a: string, b: string)
    ensures DigitsOnly(a + b) == DigitsOnly(a) + DigitsOnly(b)
    decreases |a|
  {
    if a != [] {
      assert (a + b)[0] == a[0];
      assert (a + b)[1..] == a[1..] + b;
      DigitsOnlyAppend(a[1..], b);
    } else {
      assert a + b == b;
    }
  }

  /** The filter leaves a string alone exactly when it is all digits. */
  lemma {:induction false} DigitsOnlyFixesDigits(s: string)
    ensures DigitsOnly(s) == s <==> AllDigits(s)
    decreases |s|
  {
    if s != [] {
      DigitsOnlyFixesDigits(s[1..]);
      if AllDigits(s) {
        assert AllDigits(s[1..]) by {
          forall i | 0 <= i < |s| - 1 ensures IsDigit(s[1..][i]) { assert s[1..][i] == s[i + 1]; }
        }
        assert s == [s[0]] + s[1..];
      }
    }
  }

  /** Filtering twice is filtering once. */
  lemma DigitsOnlyIdempotent(s: string)
    ensures DigitsOnly(DigitsOnly(s)) == DigitsOnly(s)
  {
    DigitsOnlyFixesDigits(DigitsOnly(s));
  }

  /** The UTF-16 code units of `c`: a character above U+FFFF is a surrogate pair. */
  function CodeUnits(c: char): nat {
    if c as int > 0xFFFF then 2 else 1
  }

  /** All characters lie in the Basic Multilingual Plane, so each is one code unit. */
  predicate InBmp(s: string) { forall i | 0 <= i < |s| :: s[i] as int <= 0xFFFF }

  /** `s.length`: the number of UTF-16 code units, where a character above U+FFFF counts twice. */
  function Utf16Length(s: string): (r: nat)
    ensures |s| <= r <= 2 * |s|
    ensures s == [] <==> r == 0
    decreases |s|
  {
    if s == [] then 0 else CodeUnits(s[0]) + Utf16Length(s[1..])
  }

  /** `length` agrees with the number of characters exactly on BMP strings. */
  lemma {:induction false} Utf16LengthOfBmp(s: string)
    ensures Utf16Length(s) == |s| <==> InBmp(s)
    decreases |s|
  {
    if s != [] {
      Utf16LengthOfBmp(s[1..]);
      if InBmp(s) {
        assert InBmp(s[1..]) by {
          forall i | 0 <= i < |s| - 1 ensures s[1..][i] as int <= 0xFFFF { assert s[1..][i] == s[i + 1]; }
        }
      }
      if Utf16Length(s) == |s| {
        assert CodeUnits(s[0]) == 1 && Utf16Length(s[1..]) == |s| - 1;
        forall i | 0 <= i < |s| ensures s[i] as int <= 0xFFFF {
          if i > 0 { assert s[i] == s[1..][i - 1]; }
        }
      }
    }
  }

  /** A digit string is as long in code units as in characters. */
  lemma Utf16LengthOfDigits(s: string)
    requires AllDigits(s)
    ensures Utf16Length(s) == |s|
  {
    Utf16LengthOfBmp(s);
  }

  /** A string of characters above U+FFFF is twice as long in code units. */
  lemma {:induction false} Utf16LengthAboveBmp(s: string)
    requires forall i | 0 <= i < |s| :: s[i] as int > 0xFFFF
    ensures Utf16Length(s) == 2 * |s|
    decreases |s|
  {
    if s != [] {
      assert s[0] as int > 0xFFFF;
      forall i | 0 <= i < |s| - 1 ensures s[1..][i] as int > 0xFFFF { assert s[1..][i] == s[i + 1]; }
      Utf16LengthAboveBmp(s[1..]);
    }
  }

  /** `s.trimStart()` */
  function TrimStart(s: string): (r: string)
    ensures |r| <= |s| && r == s[|s| - |r|..]
    ensures forall i | 0 <= i < |s| - |r| :: IsSpace(s[i])
    ensures r == [] || !IsSpace(r[0])
    decreases |s|
  {
    if s != [] && IsSpace(s[0]) then TrimStart(s[1..]) else s
  }

  /** `s.trimEnd()` */
  function TrimEnd(s: string): (r: string)
    ensures |r| <= |s| && r == s[..|r|]
    ensures forall i | |r| <= i < |s| :: IsSpace(s[i])
    ensures r == [] || !IsSpace(r[|r| - 1])
    decreases |s|
  {
    if s != [] && IsSpace(s[|s| - 1]) then TrimEnd(s[..|s| - 1]) else s
  }

  /** `s.trim()` */
  function Trim(s: string): string {
    TrimEnd(TrimStart(s))
  }

  /** `s.trim() === ''` (equivalently `!s.trim()`) holds exactly for the blank strings. */
  lemma TrimEmptyIffBlank(s: string)
    ensures Trim(s) == [] <==> IsBlank(s)
  {
  }

  /** Trimming never touches a string of digits. */
  lemma TrimOfDigits(s: string)
    requires AllDigits(s)
    ensures Trim(s) == s
  {
    if s != [] {
      assert IsDigit(s[0]) && IsDigit(s[|s| - 1]);
    }
  }

  /** `s.split(c)[0]`: the text before the first `c`, or all of `s` when it has none. */
  function BeforeFirst(s: string, c: char): (r: string)
    ensures |r| <= |s| && r == s[..|r|]
    ensures c !in r
    ensures |r| < |s| ==> s[|r|] == c
    decreases |s|
  {
    if s == [] || s[0] == c then [] else [s[0]] + BeforeFirst(s[1..], c)
  }

  /** `c.toLowerCase()` on ASCII letters; every other character is kept. */
  function LowerChar(c: char): char {
    if IsUpper(c) then (c as int + 32) as char else c
  }

  /** `s.toLowerCase()` restricted to ASCII letters. */
  function ToLower(s: string): string {
    seq(|s|, i requires 0 <= i < |s| => LowerChar(s[i]))
  }

  /** Lower-casing keeps every occurrence: a match found before `toLowerCase()` is still found after it. */
  lemma ContainsToLower(s: string, t: string)
    requires Contains(s, t)
    ensures Contains(ToLower(s), ToLower(t))
  {
    var k :| 0 <= k <= |s| - |t| && OccursAt(s, t, k);
    assert ToLower(s)[k..k + |t|] == ToLower(t) by {
      forall i | 0 <= i < |t| ensures ToLower(s)[k..k + |t|][i] == ToLower(t)[i] {
        assert s[k..k + |t|][i] == t[i];
      }
    }
    assert OccursAt(ToLower(s), ToLower(t), k);
  }
}
