/** The pieces of Python's `str` that the downloaders rely on: `isspace`,
    `lower`/`upper`/`title` (on ASCII letters), the `in` substring test,
    `strip`, `split(sep)` and `sep.join`, `replace` of one character and
    `[:n]` slicing. */
module Text {

  /** Python's `str.isspace()`: the 29 code points it treats as whitespace.
      The same set is what `\s` matches in a `str` regular expression and
      what `str.strip()` removes. */
  predicate IsSpace(c: char) {
    ('\t' <= c <= '\r') || ('\U{1c}' <= c <= '\U{1f}') || c == ' '
    || c == '\U{85}' || c == '\U{a0}' || c == '\U{1680}'
    || ('\U{2000}' <= c <= '\U{200a}') || c == '\U{2028}' || c == '\U{2029}'
    || c == '\U{202f}' || c == '\U{205f}' || c == '\U{3000}'
  }

  predicate IsUpper(c: char) { 'A' <= c <= 'Z' }
  predicate IsLower(c: char) { 'a' <= c <= 'z' }
  /** A letter that has case; only ASCII letters are modelled. */
  predicate IsCased(c: char) { IsUpper(c) || IsLower(c) }

  function LowerChar(c: char): char {
    if IsUpper(c) then (c as int - 'A' as int + 'a' as int) as char else c
  }

  function UpperChar(c: char): char {
    if IsLower(c) then (c as int - 'a' as int + 'A' as int) as char else c
  }

  /** `s.lower()` */
  function Lower(s: string): (r: string)
    ensures |r| == |s| && forall i :: 0 <= i < |s| ==> r[i] == LowerChar(s[i])
  {
    if s == [] then [] else [LowerChar(s[0])] + Lower(s[1..])
  }

  lemma {:induction false} LowerIdempotent(s: string)
    ensures Lower(Lower(s)) == Lower(s)
  {
    forall i | 0 <= i < |s| ensures Lower(Lower(s))[i] == Lower(s)[i] {
      var c := s[i];
      if IsUpper(c) { assert IsLower(LowerChar(c)); }
    }
  }

  /** `t` occurs in `s` starting at index `i`. */
  predicate OccursAt(s: string, t: string, i: nat) {
    i + |t| <= |s| && s[i..i + |t|] == t
  }

  /** Two occurrences side by side are an occurrence of the concatenation. */
  lemma OccursConcat(s: string, a: string, b: string, i: nat)
    requires OccursAt(s, a, i) && OccursAt(s, b, i + |a|)
    ensures OccursAt(s, a + b, i)
  {
    assert s[i..i + |a| + |b|] == s[i..i + |a|] + s[i + |a|..i + |a| + |b|];
  }

  /** An occurrence of a concatenation is two occurrences side by side. */
  lemma OccursSplit(s: string, a: string, b: string, i: nat)
    requires OccursAt(s, a + b, i)
    ensures OccursAt(s, a, i) && OccursAt(s, b, i + |a|)
  {
    assert s[i..i + |a|] == s[i..i + |a| + |b|][..|a|];
    assert s[i + |a|..i + |a| + |b|] == s[i..i + |a| + |b|][|a|..];
  }

  /** Python's `t in s` for strings. */
  predicate Contains(s: string, t: string) {
    exists i: nat :: i <= |s| && OccursAt(s, t, i)
  }

  /** Substring is transitive: an occurrence of `b` carries every
      occurrence of `a` inside `b` with it. */
  lemma ContainsTransitive(s: string, b: string, a: string)
    requires Contains(s, b) && Contains(b, a)
    ensures Contains(s, a)
  {
    var i: nat :| i <= |s| && OccursAt(s, b, i);
    var j: nat :| j <= |b| && OccursAt(b, a, j);
    forall k | 0 <= k < |a| ensures s[i + j + k] == a[k] {
      assert s[i + j + k] == s[i..i + |b|][j + k] == b[j..j + |a|][k];
    }
    assert s[i + j..i + j + |a|] == a;
    assert OccursAt(s, a, i + j);
  }

  /** `s.lstrip()` */
  function LStrip(s: string): (r: string)
    ensures |r| <= |s| && r == s[|s| - |r|..]
    ensures r == [] || !IsSpace(r[0])
    ensures forall i :: 0 <= i < |s| - |r| ==> IsSpace(s[i])
  {
    if s != [] && IsSpace(s[0]) then LStrip(s[1..]) else s
  }

  /** `s.rstrip()` */
  function RStrip(s: string): (r: string)
    ensures |r| <= |s| && r == s[..|r|]
    ensures r == [] || !IsSpace(r[|r| - 1])
    ensures forall i :: |r| <= i < |s| ==> IsSpace(s[i])
  {
    if s != [] && IsSpace(s[|s| - 1]) then RStrip(s[..|s| - 1]) else s
  }

  /** `s.strip()`: neither starts nor ends with whitespace (StripBounds
      says which part of `s` it is). */
  function Strip(s: string): (r: string)
    ensures |r| <= |s|
    ensures r == [] || (!IsSpace(r[0]) && !IsSpace(r[|r| - 1]))
  {
    RStrip(LStrip(s))
  }

  /** `strip` keeps a contiguous part of `s` and cuts only whitespace. */
  lemma StripBounds(s: string) returns (lo: nat, hi: nat)
    ensures lo <= hi <= |s| && Strip(s) == s[lo..hi]
    ensures forall i :: 0 <= i < lo ==> IsSpace(s[i])
    ensures forall i :: hi <= i < |s| ==> IsSpace(s[i])
  {
    var l := LStrip(s);
    var r := RStrip(l);
    lo, hi := |s| - |l|, |s| - |l| + |r|;
    PrefixOfSuffix(s, lo, |r|);
    forall i | hi <= i < |s| ensures IsSpace(s[i]) {
      SuffixIndex(s, lo, i);
    }
  }

  /** Index `i` of `s` is index `i - lo` of the suffix from `lo`. */
  lemma SuffixIndex(s: string, lo: nat, i: nat)
    requires lo <= i < |s|
    ensures s[i] == s[lo..][i - lo]
  {
  }

  /** The first `n` characters after index `lo` are the slice `lo..lo + n`. */
  lemma PrefixOfSuffix(s: string, lo: nat, n: nat)
    requires lo + n <= |s|
    ensures s[lo..][..n] == s[lo..lo + n]
  {
  }

  /** A string with no whitespace at either end is its own strip. */
  lemma {:induction false} StripNoEdgeSpace(s: string)
    requires s == [] || (!IsSpace(s[0]) && !IsSpace(s[|s| - 1]))
    ensures Strip(s) == s
  {
    assert LStrip(s) == s;
  }

  /** Python's `s[:n]` */
  function Take(s: string, n: nat): (r: string)
    ensures |r| <= n && |r| <= |s|
    ensures |s| <= n ==> r == s
    ensures r == s[..|r|]
  {
    if |s| <= n then s else s[..n]
  }

  /** `s.replace(a, b)` for one-character `a` and `b`. */
  function ReplaceChar(s: string, a: char, b: char): (r: string)
    ensures |r| == |s|
    ensures a != b ==> a !in r
    ensures forall i :: 0 <= i < |s| ==> r[i] == (if s[i] == a then b else s[i])
  {
    if s == [] then [] else [if s[0] == a then b else s[0]] + ReplaceChar(s[1..], a, b)
  }

  /** `s.split(sep)` for a one-character separator: the pieces between
      separators, never an empty list. */
  function Split(s: string, sep: char): (r: seq<string>)
    ensures |r| >= 1
    ensures forall i :: 0 <= i < |r| ==> sep !in r[i]
  {
    if s == [] then [""]
    else
      var rest := Split(s[1..], sep);
      if s[0] == sep then [""] + rest
      else [[s[0]] + rest[0]] + rest[1..]
  }

  /** `sep.join(parts)` */
  function Join(parts: seq<string>, sep: string): string {
    if parts == [] then ""
    else if |parts| == 1 then parts[0]
    else parts[0] + sep + Join(parts[1..], sep)
  }

  /** Splitting and joining back on the same separator is the identity. */
  lemma {:induction false} JoinSplit(s: string, sep: char)
    ensures Join(Split(s, sep), [sep]) == s
  {
    if s != [] {
      var rest := Split(s[1..], sep);
      JoinSplit(s[1..], sep);
      if s[0] == sep {
        assert Split(s, sep) == [""] + rest;
        assert ([""] + rest)[1..] == rest;
      } else {
        var parts := Split(s, sep);
        assert parts == [[s[0]] + rest[0]] + rest[1..];
        if |rest| == 1 {
          assert Join(rest, [sep]) == rest[0];
        } else {
          assert parts[1..] == rest[1..];
          assert Join(rest, [sep]) == rest[0] + [sep] + Join(rest[1..], [sep]);
        }
      }
    }
  }

  /** Python's `str.title()` over ASCII: a cased character is upper-cased
      when the character before it is not cased, lower-cased otherwise. */
  function TitleFrom(s: string, prevCased: bool): (r: string)
    ensures |r| == |s|
  {
    if s == [] then []
    else [if prevCased then LowerChar(s[0]) else UpperChar(s[0])] + TitleFrom(s[1..], IsCased(s[0]))
  }

  function Title(s: string): (r: string) {
    TitleFrom(s, false)
  }

  /** `title()` only changes the case of letters: whether each character is
      cased, and every non-letter, stay as they were. */
  lemma {:induction false} TitleKeepsShape(s: string, prevCased: bool)
    ensures |TitleFrom(s, prevCased)| == |s|
    ensures forall i :: 0 <= i < |s| ==>
      IsCased(TitleFrom(s, prevCased)[i]) == IsCased(s[i])
      && (!IsCased(s[i]) ==> TitleFrom(s, prevCased)[i] == s[i])
  {
    if s != [] {
      TitleKeepsShape(s[1..], IsCased(s[0]));
      var r := TitleFrom(s, prevCased);
      assert r[1..] == TitleFrom(s[1..], IsCased(s[0]));
    }
  }

  /** Title-casing twice is the same as title-casing once. */
  lemma {:induction false} TitleIdempotent(s: string, prevCased: bool)
    ensures TitleFrom(TitleFrom(s, prevCased), prevCased) == TitleFrom(s, prevCased)
  {
    if s != [] {
      var t := TitleFrom(s, prevCased);
      var c := s[0];
      assert t[0] == (if prevCased then LowerChar(c) else UpperChar(c));
      assert IsCased(t[0]) == IsCased(c);
      assert t[1..] == TitleFrom(s[1..], IsCased(c));
      TitleIdempotent(s[1..], IsCased(c));
      if prevCased {
        if IsUpper(c) { assert IsLower(t[0]); }
      } else {
        if IsLower(c) { assert IsUpper(t[0]); }
      }
    }
  }

  /** `os.path.join(dir, name)` (POSIX rules) for a relative `name`: the
      directory, a `/` unless it already ends with one, then the name. */
  function JoinPath(dir: string, name: string): (r: string)
    ensures |r| >= |name| && r[|r| - |name|..] == name
    ensures |r| >= |dir| && r[..|dir|] == dir
  {
    if dir == [] || dir[|dir| - 1] == '/' then dir + name else dir + "/" + name
  }
}
