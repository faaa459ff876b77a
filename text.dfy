/** Models of the Go standard-library string operations the exporter relies on (package strings,
    unicode.IsSpace and RE2's character classes). Strings are sequences of code points. */
module Text {

  /** RE2's `\s`: tab, newline, form feed, carriage return and space. */
  predicate IsReSpace(c: char) {
    c == '\t' || c == '\n' || c == '\U{C}' || c == '\r' || c == ' '
  }

  /** Go's unicode.IsSpace, as strings.TrimSpace uses it. */
  predicate IsSpace(c: char) {
    || c == '\t' || c == '\n' || c == '\U{B}' || c == '\U{C}' || c == '\r' || c == ' '
    || c == '\U{85}' || c == '\U{A0}' || c == '\U{1680}'
    || ('\U{2000}' <= c <= '\U{200A}')
    || c == '\U{2028}' || c == '\U{2029}' || c == '\U{202F}' || c == '\U{205F}' || c == '\U{3000}'
  }

  predicate IsDigit(c: char) { '0' <= c <= '9' }

  predicate IsLetter(c: char) { ('a' <= c <= 'z') || ('A' <= c <= 'Z') }

  /** The class `[a-zA-Z0-9\/\.-]` that interface names are matched with. */
  predicate IsNameChar(c: char) { IsLetter(c) || IsDigit(c) || c == '/' || c == '.' || c == '-' }

  predicate StartsWith(s: string, prefix: string) {
    |prefix| <= |s| && s[..|prefix|] == prefix
  }

  /** p + rest starts with p, and the character after p is rest's first. */
  lemma StartsWithConcat(p: string, rest: string)
    ensures StartsWith(p + rest, p)
    ensures |rest| > 0 ==> (p + rest)[|p|] == rest[0]
  {
    assert (p + rest)[..|p|] == p;
  }

  /** strings.Contains */
  predicate Contains(s: string, sub: string) {
    exists i | 0 <= i <= |s| - |sub| :: StartsWith(s[i..], sub)
  }

  lemma ContainsAt(s: string, sub: string, i: nat)
    requires i + |sub| <= |s| && s[i..i + |sub|] == sub
    ensures Contains(s, sub)
  {
    assert StartsWith(s[i..], sub);
  }

  /** Contains(s, [c]) is membership of c. */
  lemma ContainsChar(s: string, c: char)
    ensures Contains(s, [c]) <==> c in s
  {
    if c in s {
      var i :| 0 <= i < |s| && s[i] == c;
      assert StartsWith(s[i..], [c]);
    }
    if Contains(s, [c]) {
      var i :| 0 <= i <= |s| - 1 && StartsWith(s[i..], [c]);
      assert s[i] == s[i..][0];
    }
  }

  /** The length of the longest prefix of s made of name characters. */
  function NameRun(s: string): (n: nat)
    ensures n <= |s|
    ensures forall k :: 0 <= k < n ==> IsNameChar(s[k])
    ensures n < |s| ==> !IsNameChar(s[n])
  {
    if |s| > 0 && IsNameChar(s[0]) then 1 + NameRun(s[1..]) else 0
  }

  /** The length of the longest prefix of s made of digits. */
  function DigitRun(s: string): (n: nat)
    ensures n <= |s|
    ensures forall k :: 0 <= k < n ==> IsDigit(s[k])
    ensures n < |s| ==> !IsDigit(s[n])
  {
    if |s| > 0 && IsDigit(s[0]) then 1 + DigitRun(s[1..]) else 0
  }

  /** The length of the longest prefix of s made of RE2 whitespace. */
  function ReSpaceRun(s: string): (n: nat)
    ensures n <= |s|
    ensures forall k :: 0 <= k < n ==> IsReSpace(s[k])
    ensures n < |s| ==> !IsReSpace(s[n])
  {
    if |s| > 0 && IsReSpace(s[0]) then 1 + ReSpaceRun(s[1..]) else 0
  }

  /** parts[0] + sep + parts[1] + ... : the inverse of Split. */
  function Join(parts: seq<string>, sep: char): string
    requires |parts| >= 1
  {
    if |parts| == 1 then parts[0] else parts[0] + [sep] + Join(parts[1..], sep)
  }

  /** strings.Split(s, string(sep)): the maximal sep-free segments, in order (one for "" ). */
  function Split(s: string, sep: char): (parts: seq<string>)
    ensures |parts| >= 1
    ensures forall k :: 0 <= k < |parts| ==> sep !in parts[k]
    ensures Join(parts, sep) == s
    decreases |s|
  {
    if |s| == 0 then [""]
    else
      var rest := Split(s[1..], sep);
      if s[0] == sep then
        assert Join([""] + rest, sep) == [sep] + Join(rest, sep) by {
          assert ([""] + rest)[1..] == rest;
        }
        [""] + rest
      else
        var parts := [[s[0]] + rest[0]] + rest[1..];
        assert Join(parts, sep) == [s[0]] + Join(rest, sep) by {
          if |rest| > 1 {
            assert parts[1..] == rest[1..];
          }
        }
        parts
  }

  /** A string without the separator splits into itself alone. */
  lemma {:induction false} SplitNoSep(s: string, sep: char)
    requires sep !in s
    ensures Split(s, sep) == [s]
    decreases |s|
  {
    if |s| > 0 {
      SplitNoSep(s[1..], sep);
    }
  }

  /** A string holding the separator splits into at least two segments; the first is the text before
      the first separator and the second the text up to the next one. */
  lemma SplitFirstTwo(s: string, sep: char)
    requires sep in s
    ensures |Split(s, sep)| >= 2
    ensures StartsWith(s, Split(s, sep)[0] + [sep] + Split(s, sep)[1])
    ensures |Split(s, sep)| == 2 ==> s == Split(s, sep)[0] + [sep] + Split(s, sep)[1]
  {
    var parts := Split(s, sep);
    var rest := parts[1..];
    assert Join(parts, sep) == parts[0] + [sep] + Join(rest, sep);
    if |rest| == 1 {
      assert Join(rest, sep) == parts[1];
    } else {
      assert Join(rest, sep) == parts[1] + [sep] + Join(rest[1..], sep);
    }
  }

  /** s with every occurrence of c deleted: strings.Replace(s, string(c), "", -1). */
  function Without(s: string, c: char): (r: string)
    ensures c !in r
    ensures |r| <= |s|
    ensures c !in s ==> r == s
  {
    if |s| == 0 then "" else (if s[0] == c then "" else [s[0]]) + Without(s[1..], c)
  }

  /** Deleting a character commutes with concatenation, so it keeps every other character in place. */
  lemma {:induction false} WithoutAppend(a: string, b: string, c: char)
    ensures Without(a + b, c) == Without(a, c) + Without(b, c)
    decreases |a|
  {
    if |a| > 0 {
      assert (a + b)[1..] == a[1..] + b;
      WithoutAppend(a[1..], b, c);
    } else {
      assert a + b == b;
    }
  }

  /** A substring of t is a substring of anything ending in t. */
  lemma ContainsSuffix(pre: string, t: string, sub: string)
    requires Contains(t, sub)
    ensures Contains(pre + t, sub)
  {
    var j :| 0 <= j <= |t| - |sub| && StartsWith(t[j..], sub);
    assert (pre + t)[|pre| + j..] == t[j..];
    assert StartsWith((pre + t)[|pre| + j..], sub);
  }

  lemma ContainsMiddle(a: string, b: string, d: string)
    ensures Contains(a + b + d, b)
  {
    assert (a + b + d)[|a|..|a| + |b|] == b;
    ContainsAt(a + b + d, b, |a|);
  }

  /** Deleting a character the substring does not hold keeps the substring found at index i. */
  lemma {:induction false} WithoutKeepsContains(s: string, sub: string, c: char, i: nat)
    requires c !in sub && i + |sub| <= |s| && s[i..i + |sub|] == sub
    ensures Contains(Without(s, c), sub)
    decreases i
  {
    if i == 0 {
      var y := s[|sub|..];
      assert s == sub + y;
      WithoutAppend(sub, y, c);
      assert StartsWith(Without(s, c)[0..], sub);
    } else {
      assert s[1..][i - 1..i - 1 + |sub|] == sub;
      WithoutKeepsContains(s[1..], sub, c, i - 1);
      ContainsSuffix(if s[0] == c then "" else [s[0]], Without(s[1..], c), sub);
    }
  }

  /** Deleting a character the substring does not hold keeps the substring. */
  lemma ContainsWithout(s: string, sub: string, c: char)
    requires c !in sub && Contains(s, sub)
    ensures Contains(Without(s, c), sub)
  {
    var i :| 0 <= i <= |s| - |sub| && StartsWith(s[i..], sub);
    assert s[i..][..|sub|] == s[i..i + |sub|];
    WithoutKeepsContains(s, sub, c, i);
  }

  /** strings.TrimLeft with a predicate cut set. */
  function TrimLeft(s: string, cut: char -> bool): (r: string)
    ensures |r| <= |s| && r == s[|s| - |r|..]
    ensures forall k :: 0 <= k < |s| - |r| ==> cut(s[k])
    ensures |r| > 0 ==> !cut(r[0])
  {
    if |s| > 0 && cut(s[0]) then TrimLeft(s[1..], cut) else s
  }

  /** strings.TrimRight with a predicate cut set. */
  function TrimRight(s: string, cut: char -> bool): (r: string)
    ensures |r| <= |s| && r == s[..|r|]
    ensures forall k :: |r| <= k < |s| ==> cut(s[k])
    ensures |r| > 0 ==> !cut(r[|r| - 1])
  {
    if |s| > 0 && cut(s[|s| - 1]) then TrimRight(s[..|s| - 1], cut) else s
  }

  /** strings.TrimSpace */
  function TrimSpace(s: string): (r: string)
    ensures |r| > 0 ==> !IsSpace(r[0]) && !IsSpace(r[|r| - 1])
    ensures forall c :: c in r ==> c in s
  {
    TrimRight(TrimLeft(s, IsSpace), IsSpace)
  }

  predicate IsBlank(c: char) { c == ' ' }

  /** strings.Trim(s, " "): drops the spaces at both ends and nothing else. */
  function TrimBlanks(s: string): (r: string)
    ensures |r| > 0 ==> r[0] != ' ' && r[|r| - 1] != ' '
    ensures ' ' !in s ==> r == s
  {
    TrimRight(TrimLeft(s, IsBlank), IsBlank)
  }

  /** Trimming a cut set at both ends keeps a slice of the text and drops only cut characters
      before and after it. */
  lemma TrimBothSlice(s: string, cut: char -> bool) returns (i: nat, j: nat)
    ensures i <= j <= |s| && TrimRight(TrimLeft(s, cut), cut) == s[i..j]
    ensures forall k :: 0 <= k < i ==> cut(s[k])
    ensures forall k :: j <= k < |s| ==> cut(s[k])
  {
    var l := TrimLeft(s, cut);
    var r := TrimRight(l, cut);
    i, j := |s| - |l|, |s| - |l| + |r|;
    assert r == s[i..j] by {
      assert l == s[i..] && r == l[..|r|];
    }
    forall k | j <= k < |s|
      ensures cut(s[k])
    {
      assert l == s[i..] && s[k] == l[k - i];
    }
  }

  /** TrimBlanks keeps the text between its leading and its trailing spaces. */
  lemma TrimBlanksSlice(s: string) returns (i: nat, j: nat)
    ensures i <= j <= |s| && TrimBlanks(s) == s[i..j]
    ensures forall k :: 0 <= k < i ==> s[k] == ' '
    ensures forall k :: j <= k < |s| ==> s[k] == ' '
  {
    i, j := TrimBothSlice(s, IsBlank);
  }

  /** TrimSpace keeps the text between its leading and its trailing white space. */
  lemma TrimSpaceSlice(s: string) returns (i: nat, j: nat)
    ensures i <= j <= |s| && TrimSpace(s) == s[i..j]
    ensures forall k :: 0 <= k < i ==> IsSpace(s[k])
    ensures forall k :: j <= k < |s| ==> IsSpace(s[k])
  {
    i, j := TrimBothSlice(s, IsSpace);
  }

  function LowerChar(c: char): char {
    if 'A' <= c <= 'Z' then (c as int - 'A' as int + 'a' as int) as char else c
  }

  /** strings.ToLower, for ASCII letters. */
  function ToLower(s: string): (r: string)
    ensures |r| == |s| && forall k :: 0 <= k < |s| ==> r[k] == LowerChar(s[k])
  {
    seq(|s|, k requires 0 <= k < |s| => LowerChar(s[k]))
  }
}
