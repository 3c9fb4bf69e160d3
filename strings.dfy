/** Text helpers shared by the prompt builder and the form gate. */
module Strings {

  /** The text obtained by appending every line followed by a line feed,
      which is how the builder grows its prompt. */
  function Terminated(lines: seq<string>): string
  {
    if lines == [] then "" else Terminated(lines[..|lines| - 1]) + lines[|lines| - 1] + "\n"
  }

  lemma TerminatedSnoc(lines: seq<string>, x: string)
    ensures Terminated(lines + [x]) == Terminated(lines) + x + "\n"
  {
    assert (lines + [x])[..|lines|] == lines;
  }

  /** Rendering distributes over concatenation of line lists. */
  lemma {:induction false} TerminatedAppend(a: seq<string>, b: seq<string>)
    ensures Terminated(a + b) == Terminated(a) + Terminated(b)
    decreases |b|
  {
    if b == [] {
      assert a + b == a;
    } else {
      var front, x := b[..|b| - 1], b[|b| - 1];
      assert b == front + [x];
      assert a + b == (a + front) + [x];
      TerminatedAppend(a, front);
      TerminatedSnoc(a + front, x);
      TerminatedSnoc(front, x);
    }
  }

  /** ASCII upper-casing of one character. */
  function UpperChar(c: char): char
  {
    if 'a' <= c <= 'z' then (c as int - 32) as char else c
  }

  /** `toUpperCase`, restricted to the ASCII letters. */
  function Upper(s: string): (r: string)
    ensures |r| == |s|
    ensures forall i :: 0 <= i < |s| ==> r[i] == UpperChar(s[i])
    ensures forall i :: 0 <= i < |r| ==> !('a' <= r[i] <= 'z')
  {
    if s == [] then [] else [UpperChar(s[0])] + Upper(s[1..])
  }

  /** The characters `String.prototype.trim` strips: ECMAScript WhiteSpace
      (tab, vertical tab, form feed, space, no-break space, byte order mark
      and every space separator) and LineTerminator. */
  predicate IsTrimmable(c: char)
  {
    c == '\t' || c == '\U{000B}' || c == '\U{000C}' || c == ' ' || c == '\U{00A0}' || c == '\U{FEFF}'
    || c == '\n' || c == '\r' || c == '\U{2028}' || c == '\U{2029}'
    || c == '\U{1680}' || ('\U{2000}' <= c <= '\U{200A}') || c == '\U{202F}' || c == '\U{205F}' || c == '\U{3000}'
  }

  function TrimStart(s: string): (r: string)
    ensures |r| <= |s| && r == s[|s| - |r|..]
    ensures forall i :: 0 <= i < |s| - |r| ==> IsTrimmable(s[i])
    ensures r != [] ==> !IsTrimmable(r[0])
  {
    if s != [] && IsTrimmable(s[0]) then TrimStart(s[1..]) else s
  }

  function TrimEnd(s: string): (r: string)
    ensures |r| <= |s| && r == s[..|r|]
    ensures forall i :: |r| <= i < |s| ==> IsTrimmable(s[i])
    ensures r != [] ==> !IsTrimmable(r[|r| - 1])
  {
    if s != [] && IsTrimmable(s[|s| - 1]) then TrimEnd(s[..|s| - 1]) else s
  }

  /** No whitespace at either end. */
  predicate HasNoOuterWhitespace(s: string)
  {
    s != [] ==> !IsTrimmable(s[0]) && !IsTrimmable(s[|s| - 1])
  }

  /** `String.prototype.trim`: the input without its leading and trailing
      whitespace. */
  function Trim(s: string): (r: string)
    ensures |r| <= |s| && HasNoOuterWhitespace(r)
    ensures r == [] <==> forall i :: 0 <= i < |s| ==> IsTrimmable(s[i])
    ensures exists k :: (0 <= k <= |s| - |r| && r == s[k..][..|r|]
      && (forall i :: 0 <= i < k ==> IsTrimmable(s[i]))
      && (forall i :: k + |r| <= i < |s| ==> IsTrimmable(s[i])))
  {
    var t := TrimStart(s);
    var r := TrimEnd(t);
    PrefixOfSuffix(s, t, r);
    r
  }

  /** A prefix of a suffix of `s` is one slice of `s`; what follows the
      prefix inside the suffix is what follows the slice inside `s`. */
  lemma PrefixOfSuffix(s: string, t: string, r: string)
    requires |t| <= |s| && t == s[|s| - |t|..]
    requires |r| <= |t| && r == t[..|r|]
    ensures s[|s| - |t|..] == t && r == s[|s| - |t|..][..|r|]
    ensures forall i :: |s| - |t| <= i < |s| ==> s[i] == t[i - (|s| - |t|)]
  {
  }

  /** Trimming leaves text without outer whitespace unchanged, so trimming
      twice is trimming once. */
  lemma TrimFixesTrimmed(s: string)
    requires HasNoOuterWhitespace(s)
    ensures Trim(s) == s
  {
    if s != [] {
      assert TrimStart(s) == s;
      assert TrimEnd(s) == s;
    }
  }

  /** A character outside the Basic Multilingual Plane: two UTF-16 code units. */
  predicate IsAstral(c: char)
  {
    c as int > 0xFFFF
  }

  /** JavaScript's `length`: the number of UTF-16 code units. */
  function Utf16Length(s: string): (n: nat)
    ensures |s| <= n <= 2 * |s|
  {
    if s == [] then 0 else (if IsAstral(s[0]) then 2 else 1) + Utf16Length(s[1..])
  }

  /** At least two UTF-16 code units means at least two characters, or one
      character outside the Basic Multilingual Plane. */
  lemma Utf16AtLeastTwo(s: string)
    ensures Utf16Length(s) >= 2 <==> |s| >= 2 || (|s| == 1 && IsAstral(s[0]))
  {
    if |s| == 1 {
      assert Utf16Length(s[1..]) == 0;
    }
  }
}
