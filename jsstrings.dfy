/** The JavaScript string operations the pages and scripts rely on: `trim`,
    `split` on a one-character separator, `includes` and ASCII `toLowerCase`.
    Strings are sequences of characters; see README for what that leaves out. */
module JsString {

  /** WhiteSpace or LineTerminator in the sense of ECMAScript: exactly the
      characters that `String.prototype.trim` strips. */
  predicate IsJsSpace(c: char)
  {
    if c <= ' ' then c == ' ' || ('\t' <= c <= '\r') else IsWideSpace(c)
  }

  /** The whitespace characters beyond ASCII. */
  predicate IsWideSpace(c: char)
  {
    c == '\U{00A0}' || c == '\U{1680}' || ('\U{2000}' <= c <= '\U{200A}') || c == '\U{2028}'
    || c == '\U{2029}' || c == '\U{202F}' || c == '\U{205F}' || c == '\U{3000}' || c == '\U{FEFF}'
  }

  predicate AllSpace(s: string)
  {
    forall i :: 0 <= i < |s| ==> IsJsSpace(s[i])
  }

  /** Every character of `s` from index `i` up to, not including, `j` is whitespace. */
  predicate SpaceBetween(s: string, i: int, j: int)
    requires 0 <= i <= j <= |s|
  {
    forall k :: i <= k < j ==> IsJsSpace(s[k])
  }

  /** The index of the first non-whitespace character at or after `i`, or
      the length of `s` when there is none. */
  function SkipSpaces(s: string, i: nat): (n: nat)
    requires i <= |s|
    ensures i <= n <= |s| && SpaceBetween(s, i, n)
    ensures n < |s| ==> !IsJsSpace(s[n])
    decreases |s| - i
  {
    if i == |s| || !IsJsSpace(s[i]) then i else SkipSpaces(s, i + 1)
  }

  /** The index just after the last non-whitespace character before `j`,
      or 0 when there is none. */
  function SkipSpacesBack(s: string, j: nat): (n: nat)
    requires j <= |s|
    ensures n <= j && SpaceBetween(s, n, j)
    ensures n > 0 ==> !IsJsSpace(s[n - 1])
  {
    if j == 0 || !IsJsSpace(s[j - 1]) then j else SkipSpacesBack(s, j - 1)
  }

  /** `s.trim()`: `s` without its leading and trailing whitespace. The result
      is the part of `s` from its first non-whitespace character on, only
      whitespace follows it, and it neither starts nor ends with
      whitespace. It is empty exactly when `s` is all whitespace. */
  function Trim(s: string): (r: string)
    ensures r == [] || (!IsJsSpace(r[0]) && !IsJsSpace(r[|r| - 1]))
    ensures r == [] <==> AllSpace(s)
    ensures SkipSpaces(s, 0) + |r| <= |s|
    ensures r == s[SkipSpaces(s, 0)..SkipSpaces(s, 0) + |r|]
    ensures SpaceBetween(s, SkipSpaces(s, 0) + |r|, |s|)
  {
    var a := SkipSpaces(s, 0);
    if a == |s| then
      []
    else
      var e := SkipSpacesBack(s, |s|);
      s[a..e]
  }

  /** `trim` removes exactly the surrounding whitespace: when `s[lo..hi]`
      neither starts nor ends with whitespace and only whitespace lies
      around it, that is what is left. */
  lemma TrimExact(s: string, lo: int, hi: int)
    requires 0 <= lo < hi <= |s|
    requires SpaceBetween(s, 0, lo) && SpaceBetween(s, hi, |s|)
    requires !IsJsSpace(s[lo]) && !IsJsSpace(s[hi - 1])
    ensures Trim(s) == s[lo..hi]
  {
    var a := SkipSpaces(s, 0);
    var e := a + |Trim(s)|;
    assert Trim(s) != [] by { assert !IsJsSpace(s[lo]); }
    assert !IsJsSpace(s[e - 1]) by { assert Trim(s)[|Trim(s)| - 1] == s[e - 1]; }
  }

  /** Trimming a padded core leaves the core. */
  lemma TrimPadded(s1: string, core: string, s2: string)
    requires core != [] && !IsJsSpace(core[0]) && !IsJsSpace(core[|core| - 1])
    requires AllSpace(s1) && AllSpace(s2)
    ensures Trim(s1 + core + s2) == core
  {
    var s := s1 + core + s2;
    var i, j := |s1|, |s1| + |core|;
    assert SpaceBetween(s, 0, i) by {
      forall k | 0 <= k < i ensures IsJsSpace(s[k]) { assert s[k] == s1[k]; }
    }
    assert SpaceBetween(s, j, |s|) by {
      forall k | j <= k < |s| ensures IsJsSpace(s[k]) { assert s[k] == s2[k - j]; }
    }
    assert s[i] == core[0] && s[j - 1] == core[|core| - 1];
    TrimExact(s, i, j);
    assert s[i..j] == core;
  }

  /** `!s.trim()`: the string is empty or all whitespace. */
  predicate IsBlank(s: string)
  {
    Trim(s) == []
  }

  /** Joining pieces with a separator, the inverse of `Split`. */
  function Join(parts: seq<string>, sep: char): string
    requires |parts| >= 1
  {
    if |parts| == 1 then parts[0] else parts[0] + [sep] + Join(parts[1..], sep)
  }

  /** `s.split(sep)` for a one-character separator: the pieces between
      separators, always at least one (the empty string splits to `[""]`).
      No piece contains the separator and joining the pieces gives `s` back. */
  function Split(s: string, sep: char): (r: seq<string>)
    ensures |r| >= 1
    ensures forall k :: 0 <= k < |r| ==> sep !in r[k]
    ensures Join(r, sep) == s
  {
    if |s| == 0 then [""]
    else
      var rest := Split(s[1..], sep);
      if s[0] == sep then
        assert s == [sep] + s[1..];
        [""] + rest
      else
        var r := [[s[0]] + rest[0]] + rest[1..];
        assert r[1..] == rest[1..];
        assert s == [s[0]] + s[1..];
        r
  }

  lemma {:induction false} SplitPrepend(w: string, t: string, sep: char)
    requires sep !in w
    ensures Split(w + t, sep) == [w + Split(t, sep)[0]] + Split(t, sep)[1..]
  {
    if w == [] {
      assert w + t == t;
      var r := Split(t, sep);
      assert w + r[0] == r[0];
      assert [r[0]] + r[1..] == r;
    } else {
      assert (w + t)[1..] == w[1..] + t;
      SplitPrepend(w[1..], t, sep);
      assert [w[0]] + (w[1..] + Split(t, sep)[0]) == w + Split(t, sep)[0];
    }
  }

  /** Splitting a joined sequence of separator-free pieces gives the pieces back. */
  lemma {:induction false} SplitJoin(parts: seq<string>, sep: char)
    requires |parts| >= 1
    requires forall k :: 0 <= k < |parts| ==> sep !in parts[k]
    ensures Split(Join(parts, sep), sep) == parts
  {
    if |parts| == 1 {
      SplitPrepend(parts[0], [], sep);
      assert parts[0] + [] == parts[0];
    } else {
      var j := Join(parts[1..], sep);
      assert Join(parts, sep) == parts[0] + ([sep] + j);
      SplitPrepend(parts[0], [sep] + j, sep);
      assert ([sep] + j)[1..] == j;
      assert Split([sep] + j, sep) == [""] + Split(j, sep);
      SplitJoin(parts[1..], sep);
      assert parts[0] + "" == parts[0];
      assert [parts[0]] + parts[1..] == parts;
    }
  }

  /** `s.includes(t)`. */
  predicate Contains(s: string, t: string)
    decreases |s|
  {
    |t| <= |s| && (s[..|t|] == t || (|s| > 0 && Contains(s[1..], t)))
  }

  /** `t` occurs in `s` starting at position `i`. */
  predicate OccursAt(s: string, t: string, i: int)
  {
    0 <= i && i + |t| <= |s| && s[i..i + |t|] == t
  }

  /** `includes` finds `t` exactly when `t` occurs at some position of `s`. */
  lemma {:induction false} ContainsAt(s: string, t: string)
    ensures Contains(s, t) <==> exists i :: OccursAt(s, t, i)
  {
    if Contains(s, t) {
      if s[..|t|] == t {
        assert OccursAt(s, t, 0);
      } else {
        ContainsAt(s[1..], t);
        var i :| OccursAt(s[1..], t, i);
        assert s[i + 1..i + 1 + |t|] == s[1..][i..i + |t|];
        assert OccursAt(s, t, i + 1);
      }
    }
    if exists i :: OccursAt(s, t, i) {
      var i :| OccursAt(s, t, i);
      if i > 0 {
        assert s[1..][i - 1..i - 1 + |t|] == s[i..i + |t|];
        assert OccursAt(s[1..], t, i - 1);
        ContainsAt(s[1..], t);
      }
    }
  }

  function LowerChar(c: char): char
  {
    if 'A' <= c <= 'Z' then (c as int + 32) as char else c
  }

  /** `s.toLowerCase()` restricted to the ASCII letters. */
  function ToLower(s: string): (r: string)
    ensures |r| == |s|
    ensures forall i :: 0 <= i < |s| ==> r[i] == LowerChar(s[i])
  {
    if s == [] then [] else [LowerChar(s[0])] + ToLower(s[1..])
  }
}
