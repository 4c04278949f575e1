/**
 * The slice of Python's `pathlib` and `str` behaviour the service relies on:
 * the last path segment (`name`), its extension (`suffix`) and the part before
 * it (`stem`), joining a directory and a name, and lower-casing.
 */
module Paths {

  /** Lower-cases one character; only ASCII letters change. */
  function LowerChar(c: char): char
  {
    if 'A' <= c <= 'Z' then (c as int + 32) as char else c
  }

  /** `s.lower()`, restricted to ASCII letters. */
  function Lower(s: string): (r: string)
    ensures |r| == |s|
    ensures forall i :: 0 <= i < |s| ==> r[i] == LowerChar(s[i])
  {
    seq(|s|, i requires 0 <= i < |s| => LowerChar(s[i]))
  }

  predicate EndsWith(s: string, tail: string)
  {
    |tail| <= |s| && s[|s| - |tail|..] == tail
  }

  predicate StartsWith(s: string, head: string)
  {
    |head| <= |s| && s[..|head|] == head
  }

  /** `s.rfind(c)`: the index of the last occurrence of `c`, or -1. */
  function RFind(s: string, c: char): (i: int)
    ensures -1 <= i < |s|
    ensures i >= 0 ==> s[i] == c
    ensures forall j :: i < j < |s| ==> s[j] != c
  {
    if |s| == 0 then -1
    else if s[|s| - 1] == c then |s| - 1
    else RFind(s[..|s| - 1], c)
  }

  /** The last occurrence of a character is the one with none after it. */
  lemma RFindAt(s: string, c: char, k: int)
    requires 0 <= k < |s| && s[k] == c
    requires forall j :: k < j < |s| ==> s[j] != c
    ensures RFind(s, c) == k
  {
  }

  /**
   * `PurePosixPath(p).name`: the last segment, ignoring trailing separators
   * and `.` segments, which pathlib drops when it parses a path.
   */
  function Name(p: string): (n: string)
    ensures '/' !in n
    ensures n != "."
    decreases |p|
  {
    if |p| == 0 then ""
    else if p[|p| - 1] == '/' then Name(p[..|p| - 1])
    else
      var i := RFind(p, '/');
      if p[i + 1..] == "." then Name(p[..i + 1]) else p[i + 1..]
  }

  /** Everything up to and including the last separator of `p`. */
  function Dir(p: string): string
  {
    p[..RFind(p, '/') + 1]
  }

  /** The dot that starts the suffix of `name`, when it has one. */
  function SuffixDot(name: string): (i: int)
  {
    RFind(name, '.')
  }

  predicate HasSuffix(name: string)
  {
    0 < SuffixDot(name) < |name| - 1
  }

  /** `PurePath.suffix` of a name: from its last dot, unless that dot leads or ends it. */
  function Suffix(name: string): string
  {
    if HasSuffix(name) then name[SuffixDot(name)..] else ""
  }

  /** `PurePath.stem` of a name: the name without its suffix. */
  function Stem(name: string): string
  {
    if HasSuffix(name) then name[..SuffixDot(name)] else name
  }

  /** What a directory contributes in front of a relative name: nothing, or itself and a separator. */
  function DirPrefix(dir: string): (r: string)
    ensures r == "" || r[|r| - 1] == '/'
  {
    if dir == "" then "" else dir + "/"
  }

  /**
   * `Path(dir) / name` for a relative or absolute `name` without `.` segments:
   * an empty name keeps `dir`, an absolute name replaces it, and an empty
   * `dir` contributes nothing.
   */
  function Join(dir: string, name: string): string
  {
    if name == "" then dir
    else if name[0] == '/' then name
    else DirPrefix(dir) + name
  }

  /**
   * A name splits into stem and suffix; a suffix is empty or a dot followed
   * by at least one character and no further dot.
   */
  lemma StemSuffixSplit(name: string)
    ensures Stem(name) + Suffix(name) == name
    ensures Suffix(name) == "" || (|Suffix(name)| >= 2 && Suffix(name)[0] == '.' && '.' !in Suffix(name)[1..])
    ensures Suffix(name) != "" ==> |Stem(name)| > 0
  {
    if HasSuffix(name) {
      var i := SuffixDot(name);
      assert name[..i] + name[i..] == name;
      var s := name[i..];
      forall k | 0 <= k < |s[1..]| ensures s[1..][k] != '.' {
        assert s[1..][k] == name[i + 1 + k];
      }
    }
  }

  /**
   * A name that ends with `tail`, where `tail` is a dot followed by at least
   * one dot-free character and the name has something before it, has exactly
   * `tail` as its suffix.
   */
  lemma SuffixOfTail(name: string, tail: string)
    requires |tail| >= 2 && tail[0] == '.' && '.' !in tail[1..]
    requires |name| > |tail| && EndsWith(name, tail)
    ensures Suffix(name) == tail
    ensures Stem(name) == name[..|name| - |tail|]
  {
    var k := |name| - |tail|;
    assert name[k] == tail[0];
    forall j | k < j < |name| ensures name[j] != '.' {
      assert name[j] == tail[1..][j - k - 1];
    }
    RFindAt(name, '.', k);
  }

  /** Appending text without `c` leaves the last `c` where it was. */
  lemma RFindAppend(a: string, b: string, c: char)
    requires c !in b
    ensures RFind(a + b, c) == RFind(a, c)
  {
    var i := RFind(a, c);
    if i >= 0 {
      forall j | i < j < |a + b| ensures (a + b)[j] != c {
        if j >= |a| { assert (a + b)[j] == b[j - |a|]; }
      }
      RFindAt(a + b, c, i);
    }
  }

  /** `Dir` is empty or ends in a separator. */
  lemma DirEndsWithSeparator(p: string)
    ensures Dir(p) == "" || Dir(p)[|Dir(p)| - 1] == '/'
  {
  }

  /** A plain name placed after a directory prefix is the path's name, and the prefix its `Dir`. */
  lemma NameAfterDir(d: string, n: string)
    requires d == "" || d[|d| - 1] == '/'
    requires '/' !in n && n != "" && n != "."
    ensures Name(d + n) == n
    ensures Dir(d + n) == d
  {
    var p := d + n;
    RFindAppend(d, n, '/');
    if d != "" {
      RFindAt(d, '/', |d| - 1);
    }
    assert p[|p| - 1] == n[|n| - 1];
    assert p[|d|..] == n;
    assert p[..|d|] == d;
  }
}
