/** String helpers over `seq<char>`: the ASCII character classes the core's regular
    expressions use, prefix and substring tests, lower-casing, stripping, single-character
    rewrites and decimal rendering of natural numbers. */
module Text {

  // ---------------------------------------------------------------- character classes

  predicate IsAsciiLetter(c: char) { 'a' <= c <= 'z' || 'A' <= c <= 'Z' }

  predicate IsDigit(c: char) { '0' <= c <= '9' }

  /** `\w`, restricted to ASCII: letters, digits and underscore. */
  predicate IsWordChar(c: char) { IsAsciiLetter(c) || IsDigit(c) || c == '_' }

  /** `[\w-]`, the class of a YouTube video id. */
  predicate IsIdChar(c: char) { IsWordChar(c) || c == '-' }

  /** `[\w.-]`, the class of a TikTok user name or short-link code. */
  predicate IsWordDotDash(c: char) { IsWordChar(c) || c == '.' || c == '-' }

  /** `\s` and `str.isspace()`, restricted to ASCII. */
  predicate IsSpace(c: char)
  {
    // space, then tab through carriage return (9..13), then the separators 28..31
    c == ' ' || 9 <= c as int <= 13 || 28 <= c as int <= 31
  }

  predicate AllChars(s: string, cls: char -> bool)
  {
    forall i :: 0 <= i < |s| ==> cls(s[i])
  }

  // ---------------------------------------------------------------- prefixes and substrings

  /** `s.startswith(p)` */
  predicate StartsWith(s: string, p: string)
  {
    |p| <= |s| && s[..|p|] == p
  }

  /** `t in s` for strings: `t` occurs as a contiguous run somewhere in `s`. */
  predicate Contains(s: string, t: string)
    decreases |s|
  {
    StartsWith(s, t) || (|s| > 0 && Contains(s[1..], t))
  }

  lemma StartsWithExtend(s: string, p: string, u: string)
    requires StartsWith(s, p)
    ensures StartsWith(s + u, p)
  {
    assert (s + u)[..|p|] == s[..|p|];
  }

  lemma {:induction false} ContainsExtend(s: string, t: string, u: string)
    requires Contains(s, t)
    ensures Contains(s + u, t)
    decreases |s|
  {
    if StartsWith(s, t) {
      StartsWithExtend(s, t, u);
    } else {
      assert (s + u)[1..] == s[1..] + u;
      ContainsExtend(s[1..], t, u);
    }
  }

  lemma {:induction false} ContainsPrepend(u: string, s: string, t: string)
    requires Contains(s, t)
    ensures Contains(u + s, t)
    decreases |u|
  {
    if |u| > 0 {
      ContainsPrepend(u[1..], s, t);
      assert (u + s)[1..] == u[1..] + s;
      assert Contains((u + s)[1..], t);
    } else {
      assert u + s == s;
    }
  }

  /** Every substring of an occurring string occurs too. */
  lemma {:induction false} ContainsInner(s: string, a: string, t: string, b: string)
    requires Contains(s, a + t + b)
    ensures Contains(s, t)
    decreases |s|
  {
    if StartsWith(s, a + t + b) {
      var w := s[|a|..];
      assert w[..|t|] == (a + t + b)[|a|..|a| + |t|] == t;
      assert StartsWith(w, t);
      assert Contains(w, t);
      assert s == s[..|a|] + w;
      ContainsPrepend(s[..|a|], w, t);
    } else {
      ContainsInner(s[1..], a, t, b);
    }
  }

  /** A string occurs in any string built around it. */
  lemma ContainsMiddle(a: string, t: string, b: string)
    ensures Contains(a + t + b, t)
  {
    assert (a + t + b)[|a|..|a| + |t|] == t;
    ContainsAt(a + t + b, t, |a|);
  }

  /** A string whose first character does not occur in `s` does not occur in `s`. */
  lemma {:induction false} AbsentFirstChar(s: string, t: string)
    requires t != [] && t[0] !in s
    ensures !Contains(s, t)
    decreases |s|
  {
    if |s| > 0 {
      assert s[0] != t[0];
      assert t[0] !in s[1..];
      AbsentFirstChar(s[1..], t);
    }
  }

  /** A string that does not occur in `s` does not occur in `u + s` either, when its first
      character is not in `u`. */
  lemma {:induction false} AbsentAfterPrefix(u: string, s: string, t: string)
    requires t != [] && t[0] !in u && !Contains(s, t)
    ensures !Contains(u + s, t)
    decreases |u|
  {
    if u == [] {
      assert u + s == s;
    } else {
      assert (u + s)[0] == u[0] != t[0];
      assert (u + s)[1..] == u[1..] + s;
      assert t[0] !in u[1..];
      AbsentAfterPrefix(u[1..], s, t);
    }
  }

  /** The position form of substring occurrence. */
  lemma {:induction false} ContainsAt(s: string, t: string, i: nat)
    requires i + |t| <= |s| && s[i..i + |t|] == t
    ensures Contains(s, t)
    decreases i
  {
    if i == 0 {
      assert s[..|t|] == t;
    } else {
      assert s[1..][i - 1..i - 1 + |t|] == s[i..i + |t|];
      ContainsAt(s[1..], t, i - 1);
    }
  }

  // ---------------------------------------------------------------- case

  /** `str.lower()` on one character, ASCII only. */
  function LowerChar(c: char): char
  {
    if 'A' <= c <= 'Z' then (c as int + 32) as char else c
  }

  /** `str.lower()`, ASCII only. */
  function Lower(s: string): (r: string)
    ensures |r| == |s|
    ensures forall i :: 0 <= i < |s| ==> r[i] == LowerChar(s[i])
  {
    if s == [] then [] else [LowerChar(s[0])] + Lower(s[1..])
  }

  /** A string without upper-case ASCII letters is its own lower-case form. */
  lemma LowerNoUpper(s: string)
    requires forall i :: 0 <= i < |s| ==> !('A' <= s[i] <= 'Z')
    ensures Lower(s) == s
  {
    assert forall i :: 0 <= i < |s| ==> Lower(s)[i] == s[i];
  }

  /** Lower-casing works character by character, so it distributes over concatenation. */
  lemma LowerAppend(a: string, b: string)
    ensures Lower(a + b) == Lower(a) + Lower(b)
  {
    var l, r := Lower(a + b), Lower(a) + Lower(b);
    forall i | 0 <= i < |a + b| ensures l[i] == r[i] {
      if i < |a| {
        assert (a + b)[i] == a[i];
      } else {
        assert (a + b)[i] == b[i - |a|];
      }
    }
  }

  /** Lower-casing keeps every occurrence: if `t` is in `s`, then `t.lower()` is in `s.lower()`. */
  lemma {:induction false} LowerContains(s: string, t: string)
    requires Contains(s, t)
    ensures Contains(Lower(s), Lower(t))
    decreases |s|
  {
    if StartsWith(s, t) {
      assert Lower(s)[..|t|] == Lower(t);
    } else {
      assert Lower(s)[1..] == Lower(s[1..]);
      LowerContains(s[1..], t);
    }
  }

  // ---------------------------------------------------------------- runs, stripping

  /** Length of the longest prefix of `s` whose characters are all in `cls`: what a greedy
      `[...]+` or `[...]*` consumes. */
  function RunLength(s: string, cls: char -> bool): (k: nat)
    ensures k <= |s|
    ensures forall i :: 0 <= i < k ==> cls(s[i])
    ensures k < |s| ==> !cls(s[k])
  {
    if s == [] || !cls(s[0]) then 0 else 1 + RunLength(s[1..], cls)
  }

  lemma {:induction false} RunLengthAll(s: string, cls: char -> bool)
    requires AllChars(s, cls)
    ensures RunLength(s, cls) == |s|
  {
    if s != [] {
      RunLengthAll(s[1..], cls);
    }
  }

  /** A run over all of `a` stops where `b` starts with a character outside the class. */
  lemma {:induction false} RunLengthStops(a: string, b: string, cls: char -> bool)
    requires AllChars(a, cls) && (b == [] || !cls(b[0]))
    ensures RunLength(a + b, cls) == |a|
  {
    if a != [] {
      assert (a + b)[1..] == a[1..] + b;
      RunLengthStops(a[1..], b, cls);
    } else {
      assert a + b == b;
    }
  }

  /** A run that stops inside `a` stops at the same place in `a + b`. */
  lemma {:induction false} RunLengthAppend(a: string, b: string, cls: char -> bool)
    requires RunLength(a, cls) < |a|
    ensures RunLength(a + b, cls) == RunLength(a, cls)
  {
    if cls(a[0]) {
      assert (a + b)[1..] == a[1..] + b;
      RunLengthAppend(a[1..], b, cls);
    }
  }

  function StripLeft(s: string): (r: string)
    ensures |r| <= |s| && r == s[|s| - |r|..]
    ensures r == [] || !IsSpace(r[0])
  {
    if s != [] && IsSpace(s[0]) then StripLeft(s[1..]) else s
  }

  function StripRight(s: string): (r: string)
    ensures |r| <= |s| && r == s[..|r|]
    ensures r == [] || !IsSpace(r[|r| - 1])
  {
    if s != [] && IsSpace(s[|s| - 1]) then StripRight(s[..|s| - 1]) else s
  }

  /** `str.strip()` with its default (whitespace) argument. */
  function Strip(s: string): string
  {
    StripRight(StripLeft(s))
  }

  // ---------------------------------------------------------------- single-character rewrites

  /** Number of occurrences of `c` in `s`. */
  function CountChar(s: string, c: char): nat
  {
    if s == [] then 0 else (if s[0] == c then 1 else 0) + CountChar(s[1..], c)
  }

  /** `s.replace(c, '')` */
  function RemoveChar(s: string, c: char): (r: string)
    ensures |r| == |s| - CountChar(s, c)
    ensures forall i :: 0 <= i < |r| ==> r[i] != c && r[i] in s
  {
    if s == [] then [] else (if s[0] == c then [] else [s[0]]) + RemoveChar(s[1..], c)
  }

  /** Removing a character that does not occur changes nothing. */
  lemma {:induction false} RemoveCharAbsent(s: string, c: char)
    requires forall i :: 0 <= i < |s| ==> s[i] != c
    ensures RemoveChar(s, c) == s
  {
    if s != [] {
      RemoveCharAbsent(s[1..], c);
    }
  }

  /** `replace` works character by character: the rest of the string is kept in order. */
  lemma {:induction false} RemoveCharAppend(a: string, b: string, c: char)
    ensures RemoveChar(a + b, c) == RemoveChar(a, c) + RemoveChar(b, c)
    decreases |a|
  {
    if a == [] {
      assert a + b == b;
    } else {
      assert (a + b)[1..] == a[1..] + b;
      RemoveCharAppend(a[1..], b, c);
    }
  }

  /** On one character, `replace(c, '')` drops it exactly when it is `c`. */
  lemma RemoveCharSingle(x: char, c: char)
    ensures RemoveChar([x], c) == if x == c then [] else [x]
  {
    assert [x][1..] == [];
  }

  /** `s.replace(c, rep)` */
  function ReplaceChar(s: string, c: char, rep: string): (r: string)
    ensures |r| == |s| + CountChar(s, c) * (|rep| - 1)
    ensures c !in rep ==> c !in r
  {
    if s == [] then [] else (if s[0] == c then rep else [s[0]]) + ReplaceChar(s[1..], c, rep)
  }

  /** Replacing a character that does not occur changes nothing. */
  lemma {:induction false} ReplaceCharAbsent(s: string, c: char, rep: string)
    requires c !in s
    ensures ReplaceChar(s, c, rep) == s
  {
    if s != [] {
      assert c !in s[1..];
      ReplaceCharAbsent(s[1..], c, rep);
    }
  }

  /** `replace` works character by character: the rest of the string is kept in order. */
  lemma {:induction false} ReplaceCharAppend(a: string, b: string, c: char, rep: string)
    ensures ReplaceChar(a + b, c, rep) == ReplaceChar(a, c, rep) + ReplaceChar(b, c, rep)
    decreases |a|
  {
    if a == [] {
      assert a + b == b;
    } else {
      assert (a + b)[1..] == a[1..] + b;
      ReplaceCharAppend(a[1..], b, c, rep);
    }
  }

  /** On one character, `replace(c, rep)` gives `rep` exactly when it is `c`. */
  lemma ReplaceCharSingle(x: char, c: char, rep: string)
    ensures ReplaceChar([x], c, rep) == if x == c then rep else [x]
  {
    assert [x][1..] == [];
  }

  /** `s.find(c)`: the first index of `c`, or -1. */
  function FindChar(s: string, c: char): (r: int)
    ensures -1 <= r < |s|
    ensures r >= 0 ==> s[r] == c && forall i :: 0 <= i < r ==> s[i] != c
    ensures r == -1 ==> forall i :: 0 <= i < |s| ==> s[i] != c
  {
    if s == [] then -1
    else if s[0] == c then 0
    else var k := FindChar(s[1..], c); if k == -1 then -1 else k + 1
  }

  /** `s.rfind(c)`: the last index of `c`, or -1. */
  function RFindChar(s: string, c: char): (r: int)
    ensures -1 <= r < |s|
    ensures r >= 0 ==> s[r] == c && forall i :: r < i < |s| ==> s[i] != c
    ensures r == -1 ==> forall i :: 0 <= i < |s| ==> s[i] != c
  {
    if s == [] then -1
    else if s[|s| - 1] == c then |s| - 1
    else RFindChar(s[..|s| - 1], c)
  }

  // ---------------------------------------------------------------- decimal numbers

  function DigitChar(d: nat): (c: char)
    requires d < 10
    ensures IsDigit(c)
  {
    ('0' as int + d) as char
  }

  function DigitValue(c: char): nat
    requires IsDigit(c)
  {
    c as int - '0' as int
  }

  /** `str(n)` for a natural number: its decimal digits without leading zeros. */
  function NatToString(n: nat): (s: string)
    ensures |s| >= 1 && AllChars(s, IsDigit)
    ensures n >= 10 ==> |s| >= 2
    decreases n
  {
    if n < 10 then [DigitChar(n)] else NatToString(n / 10) + [DigitChar(n % 10)]
  }

  /** `int(s)` for a non-empty run of decimal digits (leading zeros allowed). */
  function DigitsToNat(s: string): nat
    requires AllChars(s, IsDigit)
  {
    if s == [] then 0 else DigitsToNat(s[..|s| - 1]) * 10 + DigitValue(s[|s| - 1])
  }

  /** Reading back a rendered number gives the number. */
  lemma {:induction false} NatToStringRoundTrip(n: nat)
    ensures DigitsToNat(NatToString(n)) == n
    decreases n
  {
    var s := NatToString(n);
    if n < 10 {
      assert s[..|s| - 1] == [];
    } else {
      NatToStringRoundTrip(n / 10);
      assert s[..|s| - 1] == NatToString(n / 10);
    }
  }

  /** Distinct numbers render as distinct strings. */
  lemma NatToStringInjective(m: nat, n: nat)
    requires NatToString(m) == NatToString(n)
    ensures m == n
  {
    NatToStringRoundTrip(m);
    NatToStringRoundTrip(n);
  }
}
