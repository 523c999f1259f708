/** The string operations the pages rely on: decimal rendering of a number
    (template literals such as `Option ${n}`), `String.prototype.trim`,
    `toLowerCase` and `includes`. */
module Strings {

  /** The decimal digit for `d`. */
  function DigitChar(d: nat): char
    requires d < 10
  {
    ('0' as int + d) as char
  }

  /** The value of a decimal digit character. */
  function DigitValue(c: char): nat
  {
    if '0' <= c <= '9' then (c as int) - ('0' as int) else 0
  }

  /** `${n}` for a non-negative integer: its decimal digits, no leading zeros. */
  function NatToString(n: nat): (r: string)
    ensures |r| >= 1
    ensures forall i :: 0 <= i < |r| ==> '0' <= r[i] <= '9'
    decreases n
  {
    if n < 10 then [DigitChar(n)] else NatToString(n / 10) + [DigitChar(n % 10)]
  }

  /** Reads back a string of decimal digits. */
  function ParseNat(s: string): nat
    decreases |s|
  {
    if s == [] then 0 else 10 * ParseNat(s[..|s| - 1]) + DigitValue(s[|s| - 1])
  }

  /** Decimal rendering is undone by parsing, so it never maps two numbers to one string. */
  lemma {:induction false} ParseNatToString(n: nat)
    ensures ParseNat(NatToString(n)) == n
    decreases n
  {
    if n >= 10 {
      ParseNatToString(n / 10);
      var s := NatToString(n);
      assert s[..|s| - 1] == NatToString(n / 10);
    }
  }

  lemma NatToStringInjective(m: nat, n: nat)
    requires NatToString(m) == NatToString(n)
    ensures m == n
  {
    ParseNatToString(m);
    ParseNatToString(n);
  }

  /** The white space and line terminators `String.prototype.trim` removes
      (ECMAScript WhiteSpace, which includes every Zs space, and LineTerminator). */
  predicate IsWhitespace(c: char)
  {
    var n := c as int;
    n == 0x09 || n == 0x0A || n == 0x0B || n == 0x0C || n == 0x0D || n == 0x20 ||
    n == 0xA0 || n == 0x1680 || (0x2000 <= n <= 0x200A) || n == 0x2028 || n == 0x2029 ||
    n == 0x202F || n == 0x205F || n == 0x3000 || n == 0xFEFF
  }

  /** Every character of `s` is white space (the empty string included). */
  predicate IsBlank(s: string)
  {
    forall i :: 0 <= i < |s| ==> IsWhitespace(s[i])
  }

  /** Drops the leading white space: the result is a suffix of `s` that is
      empty or starts with a non-white-space character. */
  function TrimStart(s: string): (r: string)
    ensures |r| <= |s| && r == s[|s| - |r|..]
    ensures IsBlank(s[..|s| - |r|])
    ensures r == [] || !IsWhitespace(r[0])
    decreases |s|
  {
    if s != [] && IsWhitespace(s[0]) then
      var r := TrimStart(s[1..]);
      assert s[|s| - |r|..] == s[1..][|s| - 1 - |r|..];
      assert s[..|s| - |r|] == [s[0]] + s[1..][..|s| - 1 - |r|];
      r
    else s
  }

  /** Drops the trailing white space: the result is a prefix of `s` that is
      empty or ends with a non-white-space character. */
  function TrimEnd(s: string): (r: string)
    ensures |r| <= |s| && r == s[..|r|]
    ensures IsBlank(s[|r|..])
    ensures r == [] || !IsWhitespace(r[|r| - 1])
    decreases |s|
  {
    if s != [] && IsWhitespace(s[|s| - 1]) then
      var init := s[..|s| - 1];
      var r := TrimEnd(init);
      assert s[..|r|] == init[..|r|];
      assert s[|r|..] == init[|r|..] + [s[|s| - 1]];
      r
    else s
  }

  /** `s.trim()`. */
  function Trim(s: string): string
  {
    TrimEnd(TrimStart(s))
  }

  /** `!s.trim()` holds exactly for the blank strings. */
  lemma TrimEmptyIffBlank(s: string)
    ensures Trim(s) == "" <==> IsBlank(s)
  {
    var t := TrimStart(s);
    if t != [] {
      assert t[0] == s[|s| - |t|];
    }
    if Trim(s) == "" {
      assert t[|TrimEnd(t)|..] == t;
      assert s[..|s| - |t|] == s;
    }
  }

  /** `!s.trim()`: nothing but white space is left to trim. */
  function TrimsToEmpty(s: string): (b: bool)
    ensures b <==> IsBlank(s)
  {
    TrimEmptyIffBlank(s);
    Trim(s) == ""
  }

  /** ASCII `toLowerCase` of one character. */
  function LowerChar(c: char): char
  {
    if 'A' <= c <= 'Z' then (c as int + 32) as char else c
  }

  /** ASCII `s.toLowerCase()`. */
  function Lower(s: string): (r: string)
    ensures |r| == |s|
    ensures forall i :: 0 <= i < |s| ==> r[i] == LowerChar(s[i])
  {
    seq(|s|, i requires 0 <= i < |s| => LowerChar(s[i]))
  }

  /** `s.includes(t)`, searching from the front. */
  function Contains(s: string, t: string): bool
    decreases |s|
  {
    (|t| <= |s| && s[..|t|] == t) || (s != [] && Contains(s[1..], t))
  }

  /** `t` occurs in `s` starting at position `i`. */
  predicate OccursAt(s: string, t: string, i: int)
  {
    0 <= i && i + |t| <= |s| && s[i..i + |t|] == t
  }

  /** `includes` finds `t` exactly when `t` occurs at some position of `s`. */
  lemma {:induction false} ContainsIff(s: string, t: string)
    ensures Contains(s, t) <==> exists i :: OccursAt(s, t, i)
    decreases |s|
  {
    if |t| <= |s| && s[..|t|] == t {
      assert OccursAt(s, t, 0);
    }
    if s != [] {
      ContainsIff(s[1..], t);
      if Contains(s[1..], t) {
        var i :| OccursAt(s[1..], t, i);
        assert OccursAt(s, t, i + 1) by {
          assert s[i + 1..i + 1 + |t|] == s[1..][i..i + |t|];
        }
      }
      if i :| OccursAt(s, t, i) && i > 0 {
        assert OccursAt(s[1..], t, i - 1) by {
          assert s[1..][i - 1..i - 1 + |t|] == s[i..i + |t|];
        }
      }
    }
  }

  /** Every string includes the empty string. */
  lemma ContainsEmpty(s: string)
    ensures Contains(s, "")
  {
  }
}
