/**
 * String helpers shared by the models: JavaScript's `trim`, `split` on a
 * one-character separator, `startsWith`, and the code-point lexicographic
 * order that MongoDB's `$sort` uses on strings.
 */
module Text {

  /** The characters JavaScript's String.prototype.trim removes: the
      WhiteSpace and LineTerminator productions of ECMAScript. */
  predicate IsSpace(c: char) {
    c == '\t' || c == '\n' || c == '\U{000B}' || c == '\U{000C}' || c == '\r' ||
    c == ' ' || c == '\U{00A0}' || c == '\U{1680}' ||
    ('\U{2000}' <= c <= '\U{200A}') ||
    c == '\U{2028}' || c == '\U{2029}' || c == '\U{202F}' || c == '\U{205F}' ||
    c == '\U{3000}' || c == '\U{FEFF}'
  }

  /** Drops the white space at the start of `s`: what is left is a suffix of `s`. */
  function TrimStart(s: string): (r: string)
    ensures |r| <= |s|
    ensures forall k :: 0 <= k < |r| ==> r[k] == s[|s| - |r| + k]
    ensures forall k :: 0 <= k < |s| - |r| ==> IsSpace(s[k])
    ensures r == [] || !IsSpace(r[0])
  {
    if s != [] && IsSpace(s[0]) then
      var rest := s[1..];
      assert forall k :: 0 <= k < |rest| ==> rest[k] == s[k + 1];
      TrimStart(rest)
    else s
  }

  /** Drops the white space at the end of `s`: what is left is a prefix of `s`. */
  function TrimEnd(s: string): (r: string)
    ensures |r| <= |s|
    ensures forall k :: 0 <= k < |r| ==> r[k] == s[k]
    ensures forall k :: |r| <= k < |s| ==> IsSpace(s[k])
    ensures r == [] || !IsSpace(r[|r| - 1])
  {
    if s != [] && IsSpace(s[|s| - 1]) then TrimEnd(s[..|s| - 1]) else s
  }

  /** Number of white-space characters at the start of `s`. */
  function Leading(s: string): nat {
    |s| - |TrimStart(s)|
  }

  /**
   * `s.trim()`: drops leading and trailing white space and nothing else.
   * The result is the slice of `s` that starts after its `Leading(s)`
   * white-space characters; everything before and after the slice is
   * white space.
   */
  function Trim(s: string): (r: string)
    ensures r == [] || (!IsSpace(r[0]) && !IsSpace(r[|r| - 1]))
    ensures Leading(s) + |r| <= |s|
    ensures forall k :: 0 <= k < |r| ==> r[k] == s[Leading(s) + k]
    ensures forall k :: 0 <= k < Leading(s) ==> IsSpace(s[k])
    ensures forall k :: Leading(s) + |r| <= k < |s| ==> IsSpace(s[k])
  {
    TrimSlice(s);
    TrimTail(s);
    TrimEnd(TrimStart(s))
  }

  /** What survives both trims is the slice of `s` after its leading white space. */
  lemma TrimSlice(s: string)
    ensures forall k :: 0 <= k < |TrimEnd(TrimStart(s))| ==> TrimEnd(TrimStart(s))[k] == s[Leading(s) + k]
  {
    forall k | 0 <= k < |TrimEnd(TrimStart(s))| ensures TrimEnd(TrimStart(s))[k] == s[Leading(s) + k] {
      TrimStartAt(s, k);
    }
  }

  /** Everything after that slice is white space. */
  lemma TrimTail(s: string)
    ensures forall k :: Leading(s) + |TrimEnd(TrimStart(s))| <= k < |s| ==> IsSpace(s[k])
  {
    forall k | Leading(s) + |TrimEnd(TrimStart(s))| <= k < |s| ensures IsSpace(s[k]) {
      TrimStartAt(s, k - Leading(s));
      TrimEndSpaceAt(TrimStart(s), k - Leading(s));
    }
  }

  lemma TrimStartAt(s: string, j: int)
    requires 0 <= j < |TrimStart(s)|
    ensures TrimStart(s)[j] == s[Leading(s) + j]
  {
  }

  lemma TrimEndSpaceAt(t: string, j: int)
    requires |TrimEnd(t)| <= j < |t|
    ensures IsSpace(t[j])
  {
  }

  lemma {:induction false} TrimStartFixed(s: string)
    requires s == [] || !IsSpace(s[0])
    ensures TrimStart(s) == s
  {
  }

  /** Trimming twice is trimming once. */
  lemma TrimIdempotent(s: string)
    ensures Trim(Trim(s)) == Trim(s)
  {
    var r := Trim(s);
    TrimStartFixed(r);
    if r != [] {
      assert TrimEnd(r) == r;
    }
  }

  predicate StartsWith(s: string, prefix: string) {
    |prefix| <= |s| && s[..|prefix|] == prefix
  }

  /** Number of occurrences of `c` in `s`. */
  function Occurrences(s: string, c: char): nat {
    if s == [] then 0 else (if s[0] == c then 1 else 0) + Occurrences(s[1..], c)
  }

  /** `s.split(sep)` for a one-character separator: the pieces between separators. */
  function Split(s: string, sep: char): (parts: seq<string>)
    ensures |parts| == Occurrences(s, sep) + 1
    ensures forall i :: 0 <= i < |parts| ==> sep !in parts[i]
  {
    if s == [] then [""]
    else
      var rest := Split(s[1..], sep);
      if s[0] == sep then [""] + rest
      else [[s[0]] + rest[0]] + rest[1..]
  }

  /** `parts.join(sep)`. */
  function Join(parts: seq<string>, sep: char): string
    requires |parts| >= 1
  {
    if |parts| == 1 then parts[0] else parts[0] + [sep] + Join(parts[1..], sep)
  }

  /** Splitting loses nothing: joining the pieces back gives the input. */
  lemma {:induction false} JoinSplit(s: string, sep: char)
    ensures Join(Split(s, sep), sep) == s
  {
    if s != [] {
      var rest := Split(s[1..], sep);
      JoinSplit(s[1..], sep);
      if s[0] == sep {
        assert Split(s, sep)[1..] == rest;
      } else {
        var parts := Split(s, sep);
        if |rest| == 1 {
          assert parts == [[s[0]] + rest[0]];
        } else {
          assert parts[1..] == rest[1..];
          assert Join(rest, sep) == rest[0] + [sep] + Join(rest[1..], sep);
        }
      }
    }
  }

  /** Code-point lexicographic order on strings (MongoDB's binary string order). */
  predicate LexLess(a: string, b: string) {
    if a == [] then b != []
    else if b == [] then false
    else if a[0] == b[0] then LexLess(a[1..], b[1..])
    else a[0] < b[0]
  }

  predicate LexLe(a: string, b: string) {
    a == b || LexLess(a, b)
  }

  lemma {:induction false} LexLessIrreflexive(a: string)
    ensures !LexLess(a, a)
  {
    if a != [] {
      LexLessIrreflexive(a[1..]);
    }
  }

  lemma {:induction false} LexLessTransitive(a: string, b: string, c: string)
    requires LexLess(a, b) && LexLess(b, c)
    ensures LexLess(a, c)
  {
    if a != [] && b != [] && c != [] && a[0] == b[0] && b[0] == c[0] {
      LexLessTransitive(a[1..], b[1..], c[1..]);
    }
  }

  /** Two different strings are always ordered one way or the other. */
  lemma {:induction false} LexLessTotal(a: string, b: string)
    requires a != b
    ensures LexLess(a, b) || LexLess(b, a)
  {
    if a != [] && b != [] && a[0] == b[0] {
      assert a == [a[0]] + a[1..] && b == [b[0]] + b[1..];
      LexLessTotal(a[1..], b[1..]);
    }
  }

  lemma LexLessAsymmetric(a: string, b: string)
    requires LexLess(a, b)
    ensures !LexLess(b, a)
  {
    if LexLess(b, a) {
      LexLessTransitive(a, b, a);
      LexLessIrreflexive(a);
    }
  }

  lemma LexLeAntisymmetric(a: string, b: string)
    requires LexLe(a, b) && LexLe(b, a)
    ensures a == b
  {
    if a != b {
      LexLessAsymmetric(a, b);
    }
  }

  /**
   * JavaScript's `length`: the number of UTF-16 code units, one for a
   * character of the Basic Multilingual Plane and two (a surrogate pair)
   * for any character above U+FFFF.
   */
  function Utf16Length(s: string): (n: nat)
    ensures |s| <= n <= 2 * |s|
    ensures (forall i :: 0 <= i < |s| ==> s[i] as int <= 0xFFFF) ==> n == |s|
    ensures (forall i :: 0 <= i < |s| ==> s[i] as int > 0xFFFF) ==> n == 2 * |s|
  {
    if s == [] then 0
    else (if s[0] as int > 0xFFFF then 2 else 1) + Utf16Length(s[1..])
  }
}
