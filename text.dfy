/** The string operations the scripts use: str.strip(), str.lower(), the `in`
  * operator on strings, str.replace() and the character classes of the two
  * regular expressions (\w, \s, \d). Only ASCII letters are case-folded. */
module Text {

  /** The characters str.isspace() accepts, which str.strip() removes and \s
    * matches: the controls 9-13 and 28-31, the space, NEL, the no-break space
    * and the Unicode space and line and paragraph separators. */
  const Whitespace: set<char> := {
    '\t', '\n', '\U{000B}', '\U{000C}', '\r',
    '\U{001C}', '\U{001D}', '\U{001E}', '\U{001F}', ' ',
    '\U{0085}', '\U{00A0}', '\U{1680}',
    '\U{2000}', '\U{2001}', '\U{2002}', '\U{2003}', '\U{2004}', '\U{2005}',
    '\U{2006}', '\U{2007}', '\U{2008}', '\U{2009}', '\U{200A}',
    '\U{2028}', '\U{2029}', '\U{202F}', '\U{205F}', '\U{3000}'}

  predicate IsSpace(c: char)
  {
    c in Whitespace
  }

  predicate IsDigit(c: char)
  {
    '0' <= c <= '9'
  }

  /** No digit, letter or printable ASCII mark other than the space is whitespace. */
  lemma PrintableNotSpace(c: char)
    requires '!' <= c <= '~'
    ensures !IsSpace(c)
  {
  }

  predicate IsUpper(c: char)
  {
    'A' <= c <= 'Z'
  }

  /** The ASCII part of the regular-expression class \w. */
  predicate IsWord(c: char)
  {
    'a' <= c <= 'z' || 'A' <= c <= 'Z' || IsDigit(c) || c == '_'
  }

  /** Every character of `s` is one of `cs`. */
  predicate AllIn(s: string, cs: set<char>)
  {
    forall i :: 0 <= i < |s| ==> s[i] in cs
  }

  predicate AllSpace(s: string)
  {
    AllIn(s, Whitespace)
  }

  predicate AllDigits(s: string)
  {
    forall i :: 0 <= i < |s| ==> IsDigit(s[i])
  }

  /** Neither end of `s` is one of `cs`. */
  predicate Unpadded(s: string, cs: set<char>)
  {
    s == [] || (s[0] !in cs && s[|s| - 1] !in cs)
  }

  /** The first position at or after `i` that does not hold one of `cs`. */
  function SkipIn(s: string, i: nat, cs: set<char>): (k: nat)
    requires i <= |s|
    ensures i <= k <= |s|
    ensures forall j :: i <= j < k ==> s[j] in cs
    ensures k < |s| ==> s[k] !in cs
    decreases |s| - i
  {
    if i == |s| || s[i] !in cs then i else SkipIn(s, i + 1, cs)
  }

  /** The smallest `k >= lo` such that s[k..e] consists of characters of `cs`. */
  function BackIn(s: string, lo: nat, e: nat, cs: set<char>): (k: nat)
    requires lo <= e <= |s|
    ensures lo <= k <= e
    ensures forall j :: k <= j < e ==> s[j] in cs
    ensures k > lo ==> s[k - 1] !in cs
    decreases e - lo
  {
    if e == lo || s[e - 1] !in cs then e else BackIn(s, lo, e - 1, cs)
  }

  /** The characters s[a..e], collected one by one from the right. */
  function Slice(s: string, a: nat, e: nat): (r: string)
    requires a <= e <= |s|
    ensures |r| == e - a
    decreases e - a
  {
    if a == e then [] else Slice(s, a, e - 1) + [s[e - 1]]
  }

  lemma {:induction false} SliceIs(s: string, a: nat, e: nat)
    requires a <= e <= |s|
    ensures Slice(s, a, e) == s[a..e]
    decreases e - a
  {
    if a < e {
      SliceIs(s, a, e - 1);
      assert s[a..e] == s[a..e - 1] + [s[e - 1]];
    }
  }

  /** str.strip(cs): the leading and trailing characters of `cs` removed. */
  function Trim(s: string, cs: set<char>): (r: string)
    ensures |r| <= |s|
    ensures Unpadded(r, cs)
  {
    var a := SkipIn(s, 0, cs);
    var e := BackIn(s, a, |s|, cs);
    SliceIs(s, a, e);
    Slice(s, a, e)
  }

  /** str.strip(): leading and trailing whitespace removed. */
  function Strip(s: string): (r: string)
    ensures |r| <= |s|
    ensures r == [] || (!IsSpace(r[0]) && !IsSpace(r[|r| - 1]))
  {
    Trim(s, Whitespace)
  }

  lemma {:induction false} SkipInAt(s: string, i: nat, k: nat, cs: set<char>)
    requires i <= k <= |s|
    requires forall j :: i <= j < k ==> s[j] in cs
    requires k < |s| ==> s[k] !in cs
    ensures SkipIn(s, i, cs) == k
    decreases k - i
  {
    if i < k {
      SkipInAt(s, i + 1, k, cs);
    }
  }

  lemma {:induction false} BackInAt(s: string, lo: nat, e: nat, k: nat, cs: set<char>)
    requires lo <= k <= e <= |s|
    requires forall j :: k <= j < e ==> s[j] in cs
    requires k > lo ==> s[k - 1] !in cs
    ensures BackIn(s, lo, e, cs) == k
    decreases e - k
  {
    if k < e {
      BackInAt(s, lo, e - 1, k, cs);
    }
  }

  /** Trim finds the unpadded core between padding drawn from `cs`. */
  lemma TrimOf(left: string, core: string, right: string, cs: set<char>)
    requires AllIn(left, cs) && AllIn(right, cs) && Unpadded(core, cs)
    ensures Trim(left + core + right, cs) == core
  {
    var s := left + core + right;
    if core == [] {
      SkipInAt(s, 0, |s|, cs);
    } else {
      SkipInAt(s, 0, |left|, cs);
      BackInAt(s, |left|, |s|, |left| + |core|, cs);
      SliceIs(s, |left|, |left| + |core|);
      assert s[|left|..|left| + |core|] == core;
    }
  }

  /** Every string is its trimmed core with padding from `cs` around it. */
  lemma TrimSplit(s: string, cs: set<char>) returns (left: string, right: string)
    ensures AllIn(left, cs) && AllIn(right, cs)
    ensures s == left + Trim(s, cs) + right
  {
    var a := SkipIn(s, 0, cs);
    var e := BackIn(s, a, |s|, cs);
    left, right := s[..a], s[e..];
    SliceIs(s, a, e);
    assert Trim(s, cs) == s[a..e];
    assert AllIn(left, cs) by {
      forall i | 0 <= i < |left| ensures left[i] in cs {
        assert left[i] == s[i];
      }
    }
    assert AllIn(right, cs) by {
      forall i | 0 <= i < |right| ensures right[i] in cs {
        assert right[i] == s[e + i];
      }
    }
    assert s == s[..a] + s[a..e] + s[e..];
  }

  lemma StripOf(left: string, core: string, right: string)
    requires AllSpace(left) && AllSpace(right)
    requires core == [] || (!IsSpace(core[0]) && !IsSpace(core[|core| - 1]))
    ensures Strip(left + core + right) == core
  {
    TrimOf(left, core, right, Whitespace);
  }

  lemma StripSplit(s: string) returns (left: string, right: string)
    ensures AllSpace(left) && AllSpace(right)
    ensures s == left + Strip(s) + right
  {
    left, right := TrimSplit(s, Whitespace);
  }

  lemma StripEmptyIffAllSpace(s: string)
    ensures Strip(s) == [] <==> AllSpace(s)
  {
    if AllSpace(s) {
      StripOf(s, [], []);
      assert s + [] + [] == s;
    } else {
      var left, right := StripSplit(s);
    }
  }

  lemma StripUnpadded(s: string)
    requires s == [] || (!IsSpace(s[0]) && !IsSpace(s[|s| - 1]))
    ensures Strip(s) == s
  {
    StripOf([], s, []);
    assert [] + s + [] == s;
  }

  lemma StripIdempotent(s: string)
    ensures Strip(Strip(s)) == Strip(s)
  {
    StripUnpadded(Strip(s));
  }

  /** Extra whitespace around a string does not change what strip() keeps. */
  lemma StripPadded(text: string, left: string, right: string)
    requires AllSpace(left) && AllSpace(right)
    ensures Strip(left + text + right) == Strip(text)
  {
    var l, r := StripSplit(text);
    assert left + text + right == (left + l) + Strip(text) + (r + right);
    StripOf(left + l, Strip(text), r + right);
  }

  function LowerChar(c: char): char
  {
    if 'A' <= c <= 'Z' then (c as int + 32) as char else c
  }

  /** str.lower() on ASCII letters. */
  function Lower(s: string): (r: string)
    ensures |r| == |s|
    ensures forall i :: 0 <= i < |s| ==> r[i] == LowerChar(s[i])
  {
    seq(|s|, i requires 0 <= i < |s| => LowerChar(s[i]))
  }

  /** Lowering a character never produces a digit from a non-digit. */
  lemma LowerDigit(s: string)
    ensures forall i :: 0 <= i < |s| ==> (IsDigit(Lower(s)[i]) <==> IsDigit(s[i]))
  {
  }

  predicate StartsWith(s: string, prefix: string)
  {
    |prefix| <= |s| && s[..|prefix|] == prefix
  }

  predicate EndsWith(s: string, suffix: string)
  {
    |suffix| <= |s| && s[|s| - |suffix|..] == suffix
  }

  /** Python's `sub in s`. */
  predicate Contains(s: string, sub: string)
  {
    StartsWith(s, sub) || (|s| > 0 && Contains(s[1..], sub))
  }

  predicate OccursAt(s: string, sub: string, i: nat)
  {
    i + |sub| <= |s| && s[i..i + |sub|] == sub
  }

  lemma {:induction false} ContainsAt(s: string, sub: string, i: nat)
    requires OccursAt(s, sub, i)
    ensures Contains(s, sub)
  {
    if i > 0 {
      assert s[1..][i - 1..i - 1 + |sub|] == s[i..i + |sub|];
      ContainsAt(s[1..], sub, i - 1);
    }
  }

  lemma {:induction false} ContainsWitness(s: string, sub: string) returns (i: nat)
    requires Contains(s, sub)
    ensures OccursAt(s, sub, i)
  {
    if StartsWith(s, sub) {
      i := 0;
    } else {
      var j := ContainsWitness(s[1..], sub);
      assert s[j + 1..j + 1 + |sub|] == s[1..][j..j + |sub|];
      i := j + 1;
    }
  }

  lemma ContainsExtend(a: string, sub: string, b: string, c: string)
    requires Contains(a, sub)
    ensures Contains(b + a + c, sub)
  {
    var i := ContainsWitness(a, sub);
    assert (b + a + c)[|b| + i..|b| + i + |sub|] == a[i..i + |sub|];
    ContainsAt(b + a + c, sub, |b| + i);
  }

  /** Python's `c in s` for a single character. */
  lemma ContainsChar(s: string, c: char)
    ensures Contains(s, [c]) <==> c in s
  {
    if c in s {
      var i :| 0 <= i < |s| && s[i] == c;
      assert s[i..i + 1] == [c];
      ContainsAt(s, [c], i);
    }
    if Contains(s, [c]) {
      var i := ContainsWitness(s, [c]);
      assert s[i..i + 1] == [c];
      assert s[i] == c;
    }
  }

  /** Every occurrence of the characters in `drop` deleted (chained str.replace(c, '')). */
  function RemoveChars(s: string, drop: set<char>): (r: string)
    ensures |r| <= |s|
    ensures forall i :: 0 <= i < |r| ==> r[i] !in drop && r[i] in s
  {
    if s == [] then []
    else if s[0] in drop then RemoveChars(s[1..], drop)
    else [s[0]] + RemoveChars(s[1..], drop)
  }

  lemma {:induction false} RemoveCharsUntouched(s: string, drop: set<char>)
    requires forall i :: 0 <= i < |s| ==> s[i] !in drop
    ensures RemoveChars(s, drop) == s
  {
    if s != [] {
      RemoveCharsUntouched(s[1..], drop);
    }
  }

  lemma {:induction false} RemoveCharsAppend(s: string, t: string, drop: set<char>)
    ensures RemoveChars(s + t, drop) == RemoveChars(s, drop) + RemoveChars(t, drop)
  {
    if s == [] {
      assert s + t == t;
    } else {
      var u := s + t;
      assert u != [] && u[0] == s[0] && u[1..] == s[1..] + t;
      RemoveCharsAppend(s[1..], t, drop);
      var a, b := RemoveChars(s[1..], drop), RemoveChars(t, drop);
      if s[0] in drop {
        calc {
          RemoveChars(u, drop);
          RemoveChars(s[1..] + t, drop);
          a + b;
          RemoveChars(s, drop) + b;
        }
      } else {
        calc {
          RemoveChars(u, drop);
          [s[0]] + RemoveChars(s[1..] + t, drop);
          [s[0]] + (a + b);
          { assert [s[0]] + (a + b) == ([s[0]] + a) + b; }
          ([s[0]] + a) + b;
          RemoveChars(s, drop) + b;
        }
      }
    }
  }

  /** Concatenation regrouped to the right, kept out of larger proofs. */
  lemma Regroup4<T>(x1: seq<T>, x2: seq<T>, x3: seq<T>, x4: seq<T>)
    ensures x1 + x2 + x3 + x4 == x1 + (x2 + (x3 + x4))
  {
  }

  lemma Regroup6<T>(x1: seq<T>, x2: seq<T>, x3: seq<T>, x4: seq<T>, x5: seq<T>, x6: seq<T>)
    ensures x1 + x2 + x3 + x4 + x5 + x6 == x1 + (x2 + (x3 + (x4 + (x5 + x6))))
  {
  }

  lemma RemoveCharsDropped(c: char, t: string, drop: set<char>)
    requires c in drop
    ensures RemoveChars([c] + t, drop) == RemoveChars(t, drop)
  {
    assert ([c] + t)[1..] == t;
  }

  lemma RemoveCharsKept(c: char, t: string, drop: set<char>)
    requires c !in drop
    ensures RemoveChars([c] + t, drop) == [c] + RemoveChars(t, drop)
  {
    assert ([c] + t)[1..] == t;
  }

  /** str.replace(a, b) for single characters. */
  function ReplaceChar(s: string, a: char, b: char): (r: string)
    ensures |r| == |s|
    ensures forall i :: 0 <= i < |s| ==> r[i] == if s[i] == a then b else s[i]
  {
    seq(|s|, i requires 0 <= i < |s| => if s[i] == a then b else s[i])
  }

  /** str.replace(pat, ''): occurrences deleted left to right, without overlap. */
  function RemoveAll(s: string, pat: string): string
    requires pat != []
  {
    if |s| < |pat| then s
    else if s[..|pat|] == pat then RemoveAll(s[|pat|..], pat)
    else [s[0]] + RemoveAll(s[1..], pat)
  }

  /** The \d+ run that ends `s`: how many trailing characters are digits. */
  function TrailingDigits(s: string): (n: nat)
    ensures n <= |s|
    ensures forall i :: |s| - n <= i < |s| ==> IsDigit(s[i])
    ensures n < |s| ==> !IsDigit(s[|s| - n - 1])
  {
    if s == [] || !IsDigit(s[|s| - 1]) then 0 else TrailingDigits(s[..|s| - 1]) + 1
  }

  /** The [A-Z]+ run that starts `s`. */
  function LeadingUpper(s: string): (n: nat)
    ensures n <= |s|
    ensures forall i :: 0 <= i < n ==> IsUpper(s[i])
    ensures n < |s| ==> !IsUpper(s[n])
  {
    if s == [] || !IsUpper(s[0]) then 0 else 1 + LeadingUpper(s[1..])
  }

  /** The \w+ run that starts `s`. */
  function LeadingWord(s: string): (n: nat)
    ensures n <= |s|
    ensures forall i :: 0 <= i < n ==> IsWord(s[i])
    ensures n < |s| ==> !IsWord(s[n])
  {
    if s == [] || !IsWord(s[0]) then 0 else 1 + LeadingWord(s[1..])
  }

  /** The position of the first `c` at or after `from`, if any. */
  function FindChar(s: string, c: char, from: nat): (r: int)
    requires from <= |s|
    ensures r == -1 || (from <= r < |s| && s[r] == c)
    ensures forall i :: from <= i < (if r == -1 then |s| else r) ==> s[i] != c
    decreases |s| - from
  {
    if from == |s| then -1 else if s[from] == c then from else FindChar(s, c, from + 1)
  }

  /** str.split(sep) on one separator character: never empty, and joining restores `s`. */
  function Split(s: string, sep: char): (r: seq<string>)
    ensures |r| >= 1
    ensures forall i :: 0 <= i < |r| ==> sep !in r[i]
    ensures Join(r, sep) == s
  {
    var k := FindChar(s, sep, 0);
    if k == -1 then
      assert forall i :: 0 <= i < |s| ==> s[i] != sep;
      [s]
    else
      var rest := Split(s[k + 1..], sep);
      assert sep !in s[..k];
      assert s == s[..k] + [sep] + s[k + 1..];
      [s[..k]] + rest
  }

  function Join(parts: seq<string>, sep: char): string
  {
    if parts == [] then [] else if |parts| == 1 then parts[0]
    else parts[0] + [sep] + Join(parts[1..], sep)
  }
}
