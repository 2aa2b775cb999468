/**
 * The JavaScript string operations the components rely on: `trim`, `toLowerCase`,
 * `toUpperCase`, `includes`, `endsWith`, `substring`, `split(c).pop()`, `join` and a
 * global `replace` of one character. Strings are sequences of characters.
 */
module Strings {
  import Seqs

  /**
   * The characters `String.prototype.trim` removes: the WhiteSpace and LineTerminator
   * code points of ECMAScript (tab, vertical tab, form feed, space, no-break space,
   * byte-order mark, the Space_Separator characters, LF, CR, LS and PS).
   */
  predicate IsSpace(c: char) {
    c == '\t' || c == '\n' || c == '\U{000B}' || c == '\U{000C}' || c == '\r' || c == ' '
    || c == '\U{00A0}' || c == '\U{1680}' || ('\U{2000}' <= c <= '\U{200A}')
    || c == '\U{2028}' || c == '\U{2029}' || c == '\U{202F}' || c == '\U{205F}'
    || c == '\U{3000}' || c == '\U{FEFF}'
  }

  /** Every character of s is white space (in particular, the empty string). */
  predicate AllSpace(s: string) {
    forall i :: 0 <= i < |s| ==> IsSpace(s[i])
  }

  /** Drops the leading white space: what remains is a suffix of s that starts with a non-space. */
  function TrimStart(s: string): (r: string)
    ensures |r| <= |s| && r == s[|s| - |r|..]
    ensures AllSpace(s[..|s| - |r|])
    ensures r == [] || !IsSpace(r[0])
  {
    if s != [] && IsSpace(s[0]) then
      var r := TrimStart(s[1..]);
      assert s[..|s| - |r|] == [s[0]] + s[1..][..|s| - 1 - |r|];
      r
    else s
  }

  /** Drops the trailing white space: what remains is a prefix of s that ends with a non-space. */
  function TrimEnd(s: string): (r: string)
    ensures |r| <= |s| && r == s[..|r|]
    ensures AllSpace(s[|r|..])
    ensures r == [] || !IsSpace(r[|r| - 1])
  {
    if s != [] && IsSpace(s[|s| - 1]) then
      var r := TrimEnd(s[..|s| - 1]);
      assert s[|r|..] == s[..|s| - 1][|r|..] + [s[|s| - 1]];
      r
    else s
  }

  /** `s.trim()`. */
  function Trim(s: string): (r: string)
    ensures r == [] <==> AllSpace(s)
    ensures r == [] || (!IsSpace(r[0]) && !IsSpace(r[|r| - 1]))
    ensures |r| <= |s|
    ensures exists i, j :: 0 <= i <= j <= |s| && r == s[i..j] && AllSpace(s[..i]) && AllSpace(s[j..])
  {
    var t := TrimStart(s);
    var r := TrimEnd(t);
    TrimSlice(s, t, r);
    r
  }

  /**
   * A prefix r of a suffix t of s is the slice of s between them; white space cut off on
   * either side is white space of s. When t starts with a non-space, r is empty exactly
   * when s is all white space.
   */
  lemma TrimSlice(s: string, t: string, r: string)
    requires |t| <= |s| && t == s[|s| - |t|..] && AllSpace(s[..|s| - |t|])
    requires |r| <= |t| && r == t[..|r|] && AllSpace(t[|r|..])
    requires t == [] || !IsSpace(t[0])
    ensures var i := |s| - |t|;
      r == s[i..i + |r|] && AllSpace(s[..i]) && AllSpace(s[i + |r|..])
    ensures r == [] <==> AllSpace(s)
  {
    var i := |s| - |t|;
    SuffixSlices(s, i, |r|);
    if r == [] {
      assert s == s[..i] + s[i..];
    }
    if t != [] {
      assert t[0] == s[i];
    }
  }

  /** Slicing a suffix of s is slicing s, shifted. */
  lemma SuffixSlices(s: string, i: nat, k: nat)
    requires i + k <= |s|
    ensures s[i..][..k] == s[i..i + k] && s[i..][k..] == s[i + k..]
  {
  }

  /** A string that already has no white space at either end is its own trim. */
  lemma TrimOfTrimmed(s: string)
    requires s == [] || (!IsSpace(s[0]) && !IsSpace(s[|s| - 1]))
    ensures Trim(s) == s
  {
  }

  /** `trim` is idempotent. */
  lemma TrimIdempotent(s: string)
    ensures Trim(Trim(s)) == Trim(s)
  {
    var t := Trim(s);
    assert t == [] || (!IsSpace(t[0]) && !IsSpace(t[|t| - 1]));
    TrimOfTrimmed(t);
  }

  /** ASCII lower-casing of one character. */
  function LowerChar(c: char): char {
    if 'A' <= c <= 'Z' then (c as int + 32) as char else c
  }

  /** ASCII upper-casing of one character. */
  function UpperChar(c: char): char {
    if 'a' <= c <= 'z' then (c as int - 32) as char else c
  }

  /** `s.toLowerCase()` on the ASCII letters. */
  function ToLower(s: string): (r: string)
    ensures |r| == |s|
    ensures forall i :: 0 <= i < |s| ==> r[i] == LowerChar(s[i])
  {
    if s == [] then [] else [LowerChar(s[0])] + ToLower(s[1..])
  }

  /** `s.toUpperCase()` on the ASCII letters. */
  function ToUpper(s: string): (r: string)
    ensures |r| == |s|
    ensures forall i :: 0 <= i < |s| ==> r[i] == UpperChar(s[i])
  {
    if s == [] then [] else [UpperChar(s[0])] + ToUpper(s[1..])
  }

  /** Upper-casing a concatenation upper-cases each part. */
  lemma ToUpperAppend(a: string, b: string)
    ensures ToUpper(a + b) == ToUpper(a) + ToUpper(b)
  {
  }

  /** Lower-casing twice is lower-casing once. */
  lemma ToLowerIdempotent(s: string)
    ensures ToLower(ToLower(s)) == ToLower(s)
  {
    var l := ToLower(s);
    assert forall i :: 0 <= i < |l| ==> LowerChar(l[i]) == l[i];
  }

  /** Lower-casing a concatenation lower-cases each part. */
  lemma ToLowerAppend(a: string, b: string)
    ensures ToLower(a + b) == ToLower(a) + ToLower(b)
  {
  }

  /** Lower-casing commutes with taking a suffix. */
  lemma ToLowerSuffix(s: string, i: nat)
    requires i <= |s|
    ensures ToLower(s)[i..] == ToLower(s[i..])
  {
    assert s == s[..i] + s[i..];
    ToLowerAppend(s[..i], s[i..]);
  }

  /** sub occurs in s starting at position i. */
  predicate OccursAt(s: string, sub: string, i: nat) {
    i + |sub| <= |s| && s[i..i + |sub|] == sub
  }

  /** `s.includes(sub)`: sub occurs somewhere in s; the empty string occurs in every string. */
  predicate Contains(s: string, sub: string) {
    exists i: nat :: i <= |s| && OccursAt(s, sub, i)
  }

  /** Every character of a string that occurs in s occurs in s; so does white space in a query. */
  lemma ContainsChars(s: string, sub: string, k: nat)
    requires Contains(s, sub) && k < |sub|
    ensures sub[k] in s
  {
    var i: nat :| i <= |s| && OccursAt(s, sub, i);
    assert s[i + k] == s[i..i + |sub|][k];
  }

  /** `s.endsWith(suffix)`. */
  predicate EndsWith(s: string, suffix: string) {
    |suffix| <= |s| && s[|s| - |suffix|..] == suffix
  }

  /** `s.endsWith(suffix)` for a suffix with no upper-case letter, tested on `s.toLowerCase()`. */
  lemma EndsWithLowerAppend(base: string, ext: string)
    requires ToLower(ext) == ext
    ensures EndsWith(ToLower(base + ext), ext)
  {
    ToLowerAppend(base, ext);
    assert ToLower(base + ext)[|base|..] == ext;
  }

  /**
   * `s.split(c).pop()`: the text after the last c, or all of s when c does not occur.
   * The result never holds c, is a suffix of s, and is preceded by c unless it is all of s.
   */
  function AfterLast(s: string, c: char): (r: string)
    ensures c !in r
    ensures |r| <= |s| && r == s[|s| - |r|..]
    ensures |r| < |s| ==> s[|s| - |r| - 1] == c
  {
    if s == [] then []
    else if s[|s| - 1] == c then []
    else AfterLast(s[..|s| - 1], c) + [s[|s| - 1]]
  }

  /** When c does not occur in s, `s.split(c).pop()` is s itself. */
  lemma AfterLastNone(s: string, c: char)
    requires c !in s
    ensures AfterLast(s, c) == s
  {
  }

  /** After the last c of `base + [c] + tail` comes exactly tail, when tail holds no c. */
  lemma AfterLastSplit(base: string, c: char, tail: string)
    requires c !in tail
    ensures AfterLast(base + [c] + tail, c) == tail
  {
    var s := base + [c] + tail;
    assert s[|s| - |tail|..] == tail;
    assert s[|s| - |tail| - 1] == c;
  }

  /** `parts.join(sep)`. */
  function Join(parts: seq<string>, sep: string): string {
    if parts == [] then ""
    else if |parts| == 1 then parts[0]
    else parts[0] + sep + Join(parts[1..], sep)
  }

  /** Joining two parts puts the separator between them. */
  lemma JoinPair(x: string, y: string, sep: string)
    ensures Join([x, y], sep) == x + sep + y
  {
    assert [x, y][1..] == [y];
  }

  /** `s.replace(/c/g, '')` for a character c with no special meaning in a pattern: every c removed. */
  function RemoveAll(s: string, c: char): (r: string)
    ensures c !in r
    ensures Seqs.SubsequenceOf(r, s)
    ensures forall i :: 0 <= i < |s| && s[i] != c ==> s[i] in r
    ensures forall x :: multiset(r)[x] == if x == c then 0 else multiset(s)[x]
  {
    Seqs.FilterMultiset(s, (x: char) => x != c);
    Seqs.Filter(s, (x: char) => x != c)
  }

  /** Removing every c from a concatenation removes it from each part. */
  lemma RemoveAllAppend(a: string, b: string, c: char)
    ensures RemoveAll(a + b, c) == RemoveAll(a, c) + RemoveAll(b, c)
  {
    Seqs.FilterAppend(a, b, (x: char) => x != c);
  }

  /** Removing a character that does not occur changes nothing. */
  lemma RemoveAllAbsent(s: string, c: char)
    requires c !in s
    ensures RemoveAll(s, c) == s
  {
    Seqs.FilterKeepsAll(s, (x: char) => x != c);
  }
}
