/**
 * The few pieces of Python's string and path library that the two windows use:
 * `str.lower`, the `in` operator on strings, `os.path.join`, the tail of
 * `os.path.split`, and `str` on integers (with the parser that undoes it).
 */
module Strings {

  /** `str.lower` on one character, for ASCII letters. */
  function LowerChar(c: char): (d: char)
    ensures !('A' <= d <= 'Z')
    ensures !('A' <= c <= 'Z') ==> d == c
  {
    if 'A' <= c <= 'Z' then (c as int + 32) as char else c
  }

  /** `str.lower`, character by character. */
  function Lower(s: string): (r: string)
    ensures |r| == |s|
    ensures forall i :: 0 <= i < |s| ==> r[i] == LowerChar(s[i])
  {
    seq(|s|, i requires 0 <= i < |s| => LowerChar(s[i]))
  }

  /** `sub` sits in `s` starting at index `i`. */
  ghost predicate OccursAt(sub: string, s: string, i: int)
  {
    0 <= i && i + |sub| <= |s| && s[i..i + |sub|] == sub
  }

  /** The reference meaning of Python's `sub in s`: some window of `s` equals `sub`. */
  ghost predicate Occurs(sub: string, s: string)
  {
    exists i :: OccursAt(sub, s, i)
  }

  /** Python's `sub in s` on strings, computed by trying each start position in turn. */
  function Contains(s: string, sub: string): bool
    decreases |s|
  {
    if |sub| > |s| then false
    else if s[..|sub|] == sub then true
    else Contains(s[1..], sub)
  }

  /** The search agrees with the window definition, in both directions. */
  lemma {:induction false} ContainsIffOccurs(s: string, sub: string)
    ensures Contains(s, sub) <==> Occurs(sub, s)
    decreases |s|
  {
    if |sub| > |s| {
    } else if s[..|sub|] == sub {
      assert OccursAt(sub, s, 0);
    } else {
      assert |sub| > 0;
      ContainsIffOccurs(s[1..], sub);
      if Occurs(sub, s[1..]) {
        var i :| OccursAt(sub, s[1..], i);
        assert s[1..][i..i + |sub|] == s[i + 1..i + 1 + |sub|];
        assert OccursAt(sub, s, i + 1);
      }
      if Occurs(sub, s) {
        var i :| OccursAt(sub, s, i);
        assert i != 0;
        assert s[1..][i - 1..i - 1 + |sub|] == s[i..i + |sub|];
        assert OccursAt(sub, s[1..], i - 1);
      }
    }
  }

  /** A path component that does not start with a separator. */
  predicate IsRelative(p: string)
  {
    |p| == 0 || p[0] != '/'
  }

  /**
   * POSIX `os.path.join(a, b)`: an absolute `b` replaces `a`; otherwise one
   * separator is put between them unless `a` is empty or already ends in one.
   */
  function JoinPath(a: string, b: string): string
  {
    if !IsRelative(b) then b
    else if |a| == 0 || a[|a| - 1] == '/' then a + b
    else a + "/" + b
  }

  /** Joining a relative name keeps the directory as a prefix of the result. */
  lemma JoinPathExtends(a: string, b: string)
    requires IsRelative(b)
    ensures a <= JoinPath(a, b)
  {
    if |a| == 0 || a[|a| - 1] == '/' {
      assert (a + b)[..|a|] == a;
    } else {
      assert (a + "/" + b)[..|a|] == a;
    }
  }

  /** Joining a relative name onto a fixed directory loses nothing: the name can be told back. */
  lemma JoinPathInjective(a: string, x: string, y: string)
    requires IsRelative(x) && IsRelative(y)
    requires JoinPath(a, x) == JoinPath(a, y)
    ensures x == y
  {
    var p := JoinPath(a, x);
    if |a| == 0 || a[|a| - 1] == '/' {
      assert p[|a|..] == x && p[|a|..] == y;
    } else {
      assert p[|a| + 1..] == x && p[|a| + 1..] == y;
    }
  }

  /**
   * The tail of POSIX `os.path.split(p)`: the longest suffix of `p` that holds
   * no separator.
   */
  function BaseName(p: string): (r: string)
    ensures '/' !in r
    ensures |r| <= |p| && r == p[|p| - |r|..]
    ensures |r| < |p| ==> p[|p| - |r| - 1] == '/'
    decreases |p|
  {
    if |p| == 0 || p[|p| - 1] == '/' then ""
    else
      var q := p[..|p| - 1];
      var r := BaseName(q);
      assert p[|p| - |r| - 1..] == q[|q| - |r|..] + [p[|p| - 1]];
      r + [p[|p| - 1]]
  }

  /** After a separator (or at the very start), a name without separators is its own base name. */
  lemma {:induction false} BaseNameAfterSeparator(x: string, name: string)
    requires |x| == 0 || x[|x| - 1] == '/'
    requires '/' !in name
    ensures BaseName(x + name) == name
    decreases |name|
  {
    if |name| == 0 {
      assert x + name == x;
    } else {
      var init, last := name[..|name| - 1], name[|name| - 1];
      assert name == init + [last];
      assert '/' !in init;
      assert last != '/';
      BaseNameAfterSeparator(x, init);
      var p := x + name;
      assert p == (x + init) + [last];
      assert p[..|p| - 1] == x + init;
      assert BaseName(p) == BaseName(x + init) + [last];
    }
  }

  /** `os.path.split(os.path.join(d, name))[1] == name` for a name without separators. */
  lemma BaseNameOfJoin(dir: string, name: string)
    requires '/' !in name
    ensures BaseName(JoinPath(dir, name)) == name
  {
    assert IsRelative(name) by {
      if |name| > 0 { assert name[0] in name; }
    }
    if |dir| == 0 || dir[|dir| - 1] == '/' {
      BaseNameAfterSeparator(dir, name);
    } else {
      BaseNameAfterSeparator(dir + "/", name);
      assert dir + "/" + name == (dir + "/") + name;
    }
  }

  function DigitChar(d: nat): (c: char)
    requires d < 10
    ensures '0' <= c <= '9'
  {
    ('0' as int + d) as char
  }

  function DigitValue(c: char): nat
  {
    if '0' <= c <= '9' then c as int - '0' as int else 0
  }

  /** Python's `str(n)` for a non-negative integer: its decimal digits, most significant first. */
  function NatToString(n: nat): (r: string)
    ensures |r| > 0
    ensures forall i :: 0 <= i < |r| ==> '0' <= r[i] <= '9'
    decreases n
  {
    if n < 10 then [DigitChar(n)] else NatToString(n / 10) + [DigitChar(n % 10)]
  }

  /** Python's `str(n)` for any integer: a minus sign before the digits of a negative one. */
  function IntToString(n: int): string
  {
    if n < 0 then "-" + NatToString(-n) else NatToString(n)
  }

  /** Reads decimal digits back into a number. */
  function ParseNat(s: string): nat
    decreases |s|
  {
    if |s| == 0 then 0 else ParseNat(s[..|s| - 1]) * 10 + DigitValue(s[|s| - 1])
  }

  /** Reads an optionally signed decimal number; the inverse of `IntToString`. */
  function ParseInt(s: string): int
  {
    if |s| > 0 && s[0] == '-' then -(ParseNat(s[1..]) as int) else ParseNat(s)
  }

  lemma {:induction false} ParseNatToString(n: nat)
    ensures ParseNat(NatToString(n)) == n
    decreases n
  {
    if n >= 10 {
      ParseNatToString(n / 10);
      var s := NatToString(n / 10) + [DigitChar(n % 10)];
      assert s[..|s| - 1] == NatToString(n / 10);
    }
  }

  /** `str` on integers loses nothing: parsing the text gives the number back. */
  lemma ParseIntToString(n: int)
    ensures ParseInt(IntToString(n)) == n
  {
    if n < 0 {
      ParseNatToString(-n);
      assert ("-" + NatToString(-n))[1..] == NatToString(-n);
    } else {
      ParseNatToString(n);
    }
  }
}
