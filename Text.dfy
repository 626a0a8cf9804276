/**
 * The character-level string operations the scanner relies on: Java's `strip`,
 * `isBlank`, `toLowerCase` and `equalsIgnoreCase`, and the `\s` class of the
 * regular expression that splits input lines.
 */
module Text {

  /** Java's Character.isWhitespace, the test used by String.strip and String.isBlank. */
  predicate IsWhitespace(c: char)
  {
    || c == ' ' || c == '\t' || c == '\n' || c == '\U{000B}' || c == '\U{000C}' || c == '\r'
    || ('\U{001C}' <= c <= '\U{001F}')
    || c == '\U{1680}' || ('\U{2000}' <= c <= '\U{2006}') || ('\U{2008}' <= c <= '\U{200A}')
    || c == '\U{2028}' || c == '\U{2029}' || c == '\U{205F}' || c == '\U{3000}'
  }

  /** The regular-expression class `\s`: space, tab, newline, vertical tab, form feed, carriage return. */
  predicate IsSpace(c: char)
  {
    c == ' ' || c == '\t' || c == '\n' || c == '\U{000B}' || c == '\U{000C}' || c == '\r'
  }

  /** Every character the splitting regex treats as a separator is whitespace to `strip`. */
  lemma SpaceIsWhitespace(c: char)
    ensures IsSpace(c) ==> IsWhitespace(c)
  {
  }

  /** Java's String.isBlank: the string is empty or holds only whitespace. */
  predicate IsBlank(s: string)
  {
    forall i :: 0 <= i < |s| ==> IsWhitespace(s[i])
  }

  /** Drops the leading whitespace of `s`. */
  function StripStart(s: string): (r: string)
    ensures |r| <= |s|
  {
    if s != [] && IsWhitespace(s[0]) then StripStart(s[1..]) else s
  }

  /** StripStart keeps a suffix of `s` that does not start with whitespace, and drops only whitespace. */
  lemma {:induction false} StripStartMeaning(s: string)
    ensures StripStart(s) == s[|s| - |StripStart(s)|..]
    ensures StripStart(s) == [] || !IsWhitespace(StripStart(s)[0])
    ensures forall i :: 0 <= i < |s| - |StripStart(s)| ==> IsWhitespace(s[i])
  {
    if s != [] && IsWhitespace(s[0]) {
      StripStartMeaning(s[1..]);
      var r := StripStart(s);
      forall i | 0 <= i < |s| - |r| ensures IsWhitespace(s[i]) {
        if i > 0 {
          assert s[i] == s[1..][i - 1];
        }
      }
    }
  }

  /** Drops the trailing whitespace of `s`. */
  function StripEnd(s: string): (r: string)
    ensures |r| <= |s|
  {
    if s != [] && IsWhitespace(s[|s| - 1]) then StripEnd(s[..|s| - 1]) else s
  }

  /** StripEnd keeps a prefix of `s` that does not end with whitespace, and drops only whitespace. */
  lemma {:induction false} StripEndMeaning(s: string)
    ensures StripEnd(s) == s[..|StripEnd(s)|]
    ensures StripEnd(s) == [] || !IsWhitespace(StripEnd(s)[|StripEnd(s)| - 1])
    ensures forall i :: |StripEnd(s)| <= i < |s| ==> IsWhitespace(s[i])
  {
    if s != [] && IsWhitespace(s[|s| - 1]) {
      StripEndMeaning(s[..|s| - 1]);
      var r := StripEnd(s);
      forall i | |r| <= i < |s| ensures IsWhitespace(s[i]) {
        if i < |s| - 1 {
          assert s[i] == s[..|s| - 1][i];
        }
      }
    }
  }

  /** Java's String.strip: `s` without its leading and trailing whitespace. */
  function Strip(s: string): (r: string)
    ensures |r| <= |s|
  {
    StripEnd(StripStart(s))
  }

  /**
   * The result of strip is empty exactly when `s` is blank; otherwise it starts
   * and ends with a character that is not whitespace.
   */
  lemma StripMeaning(s: string)
    ensures Strip(s) == [] <==> IsBlank(s)
    ensures Strip(s) != [] ==> !IsWhitespace(Strip(s)[0]) && !IsWhitespace(Strip(s)[|Strip(s)| - 1])
  {
    var t := StripStart(s);
    var r := Strip(s);
    StripStartMeaning(s);
    StripEndMeaning(t);
    if r != [] {
      assert r[0] == t[0];
    }
  }

  /** Where the stripped part starts in `s`: the length of its leading whitespace. */
  function StripOffset(s: string): nat
  {
    |s| - |StripStart(s)|
  }

  /**
   * What `strip` removes is whitespace and nothing else: `Strip(s)` is the slice of
   * `s` between a whitespace prefix and a whitespace suffix.
   */
  lemma StripIsSlice(s: string)
    ensures StripOffset(s) + |Strip(s)| <= |s|
    ensures Strip(s) == s[StripOffset(s)..StripOffset(s) + |Strip(s)|]
    ensures forall i :: 0 <= i < StripOffset(s) ==> IsWhitespace(s[i])
    ensures forall i :: StripOffset(s) + |Strip(s)| <= i < |s| ==> IsWhitespace(s[i])
  {
    var t := StripStart(s);
    var a := StripOffset(s);
    StripStartMeaning(s);
    StripEndMeaning(t);
    forall i | a + |Strip(s)| <= i < |s| ensures IsWhitespace(s[i]) {
      assert s[i] == t[i - a];
    }
  }

  /** Stripping twice is stripping once. */
  lemma StripIdempotent(s: string)
    ensures Strip(Strip(s)) == Strip(s)
  {
    var r := Strip(s);
    StripMeaning(s);
    if r != [] {
      StripNoop(r);
    }
  }

  /** A text that starts and ends with a non-whitespace character strips to itself. */
  lemma StripNoop(s: string)
    requires s != [] && !IsWhitespace(s[0]) && !IsWhitespace(s[|s| - 1])
    ensures Strip(s) == s
  {
    assert StripStart(s) == s;
  }

  /** Leading whitespace is all StripStart removes: blanks before a non-whitespace character go. */
  lemma {:induction false} StripStartOf(u: string, t: string)
    requires IsBlank(u) && t != [] && !IsWhitespace(t[0])
    ensures StripStart(u + t) == t
    decreases |u|
  {
    if u == [] {
      assert u + t == t;
    } else {
      assert (u + t)[0] == u[0];
      assert (u + t)[1..] == u[1..] + t;
      StripStartOf(u[1..], t);
    }
  }

  /** Trailing whitespace is all StripEnd removes: blanks after a non-whitespace character go. */
  lemma {:induction false} StripEndOf(t: string, w: string)
    requires IsBlank(w) && t != [] && !IsWhitespace(t[|t| - 1])
    ensures StripEnd(t + w) == t
    decreases |w|
  {
    if w == [] {
      assert t + w == t;
    } else {
      assert (t + w)[|t + w| - 1] == w[|w| - 1];
      assert (t + w)[..|t + w| - 1] == t + w[..|w| - 1];
      StripEndOf(t, w[..|w| - 1]);
    }
  }

  /**
   * Strip removes the surrounding whitespace and nothing more: a text that starts
   * and ends with a non-whitespace character, with blanks around it, strips to itself.
   */
  lemma StripAround(u: string, s: string, w: string)
    requires IsBlank(u) && IsBlank(w)
    requires s != [] && !IsWhitespace(s[0]) && !IsWhitespace(s[|s| - 1])
    ensures Strip(u + s + w) == s
  {
    assert u + s + w == u + (s + w);
    assert (s + w)[0] == s[0];
    StripStartOf(u, s + w);
    StripEndOf(s, w);
  }

  /** Java's Character.toLowerCase on the ASCII letters. */
  function LowerChar(c: char): char
  {
    if 'A' <= c <= 'Z' then (c as int + 32) as char else c
  }

  /** Java's String.toLowerCase, letter by letter. */
  function ToLower(s: string): (r: string)
    ensures |r| == |s|
    ensures forall i :: 0 <= i < |s| ==> r[i] == LowerChar(s[i])
    ensures forall i :: 0 <= i < |r| ==> !('A' <= r[i] <= 'Z')
    ensures EqualsIgnoreCase(r, s)
  {
    seq(|s|, i requires 0 <= i < |s| => LowerChar(s[i]))
  }

  /** Text without upper-case letters is its own lower case. */
  lemma ToLowerNoop(s: string)
    requires forall i :: 0 <= i < |s| ==> !('A' <= s[i] <= 'Z')
    ensures ToLower(s) == s
  {
    assert forall i :: 0 <= i < |s| ==> ToLower(s)[i] == s[i];
  }

  /** Java's String.equalsIgnoreCase. */
  predicate EqualsIgnoreCase(a: string, b: string)
  {
    |a| == |b| && forall i :: 0 <= i < |a| ==> LowerChar(a[i]) == LowerChar(b[i])
  }
}
