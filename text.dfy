/** The few Python string operations the core relies on: `str.strip()`, `sep.join(parts)`
    and the ASCII part of `str.lower()`. */
module Text {

  /** Python's `str.isspace()` for a single character: the characters `str.strip()` removes. */
  predicate IsSpace(c: char)
  {
    ('\t' <= c <= '\r') || ('\U{1c}' <= c <= '\U{1f}') || c == ' ' || c == '\U{85}' || c == '\U{a0}'
    || c == '\U{1680}' || ('\U{2000}' <= c <= '\U{200a}') || c == '\U{2028}' || c == '\U{2029}'
    || c == '\U{202f}' || c == '\U{205f}' || c == '\U{3000}'
  }

  /** `s.lstrip()`: drops exactly the leading whitespace. */
  function StripLeft(s: string): (r: string)
    ensures |r| <= |s| && r == s[|s| - |r|..]
    ensures forall i | 0 <= i < |s| - |r| :: IsSpace(s[i])
    ensures r == [] || !IsSpace(r[0])
    decreases |s|
  {
    if s != [] && IsSpace(s[0]) then StripLeft(s[1..]) else s
  }

  /** `s.rstrip()`: drops exactly the trailing whitespace. */
  function StripRight(s: string): (r: string)
    ensures |r| <= |s| && r == s[..|r|]
    ensures forall i | |r| <= i < |s| :: IsSpace(s[i])
    ensures r == [] || !IsSpace(r[|r| - 1])
    decreases |s|
  {
    if s != [] && IsSpace(s[|s| - 1]) then StripRight(s[..|s| - 1]) else s
  }

  /** `s.strip()`: what is left once leading and trailing whitespace are removed. */
  function Strip(s: string): (r: string)
  {
    StripLeft(StripRight(s))
  }

  /** Joining `parts` with `sep` in between, as Python's `sep.join(parts)`. */
  function Join(sep: string, parts: seq<string>): (r: string)
    decreases |parts|
  {
    if |parts| == 0 then ""
    else if |parts| == 1 then parts[0]
    else parts[0] + sep + Join(sep, parts[1..])
  }

  /** `c.lower()` for an ASCII letter; every other character is left as it is. */
  function LowerChar(c: char): char
  {
    if 'A' <= c <= 'Z' then (c as int + 32) as char else c
  }

  /** `s.lower()` restricted to ASCII letters. */
  function LowerAscii(s: string): string
  {
    if s == [] then [] else [LowerChar(s[0])] + LowerAscii(s[1..])
  }

  // ---------------------------------------------------------------- strip

  /** The stripped string has no whitespace at either end, and is empty exactly when `s` is all whitespace. */
  lemma StripShape(s: string)
    ensures var r := Strip(s);
      (r == [] || (!IsSpace(r[0]) && !IsSpace(r[|r| - 1])))
      && ((r == []) <==> (forall i | 0 <= i < |s| :: IsSpace(s[i])))
  {
    var m := StripRight(s);
    var r := StripLeft(m);
    if r != [] {
      assert r[|r| - 1] == m[|m| - 1];
    }
    if r == [] {
      forall i | 0 <= i < |s| ensures IsSpace(s[i]) {
        if i < |m| { assert IsSpace(m[i]); }
      }
    } else {
      assert !IsSpace(s[|m| - 1]);
    }
  }

  /** Stripping twice is stripping once. */
  lemma StripIdempotent(s: string)
    ensures Strip(Strip(s)) == Strip(s)
  {
    var r := Strip(s);
    StripShape(s);
    if r != [] {
      assert StripRight(r) == r;
      assert StripLeft(r) == r;
    }
  }

  /** Trailing whitespace added to a string does not survive a strip. */
  lemma {:induction false} StripRightSpace(s: string, c: char)
    requires IsSpace(c)
    ensures StripRight(s + [c]) == StripRight(s)
  {
    assert (s + [c])[..|s|] == s;
  }

  /** A string without whitespace at either end is its own strip. */
  lemma StripClean(s: string)
    requires s != [] && !IsSpace(s[0]) && !IsSpace(s[|s| - 1])
    ensures Strip(s) == s
  {
  }

  // ---------------------------------------------------------------- join

  /** Joining a concatenation puts one separator between the two joined halves. */
  lemma {:induction false} JoinAppend(sep: string, a: seq<string>, b: seq<string>)
    requires a != [] && b != []
    ensures Join(sep, a + b) == Join(sep, a) + sep + Join(sep, b)
    decreases |a|
  {
    if |a| == 1 {
      assert (a + b)[1..] == b;
    } else {
      assert (a + b)[1..] == a[1..] + b;
      JoinAppend(sep, a[1..], b);
    }
  }

  /** Each part sits, unchanged, right after the join of the parts before it and a separator,
      and right before a separator and the join of the parts after it. */
  lemma {:induction false} JoinAround(sep: string, parts: seq<string>, k: nat)
    requires k < |parts|
    ensures Join(sep, parts) ==
      (if k == 0 then "" else Join(sep, parts[..k]) + sep)
      + parts[k]
      + (if k + 1 == |parts| then "" else sep + Join(sep, parts[k + 1..]))
  {
    var tail := parts[k..];
    assert tail[0] == parts[k] && tail[1..] == parts[k + 1..];
    assert Join(sep, tail) == parts[k] + (if k + 1 == |parts| then "" else sep + Join(sep, parts[k + 1..]));
    if k > 0 {
      assert parts == parts[..k] + tail;
      JoinAppend(sep, parts[..k], tail);
    } else {
      assert parts == tail;
    }
  }

  /** The joined string starts with the first part and ends with the last one. */
  lemma {:induction false} JoinEnds(sep: string, parts: seq<string>)
    requires parts != []
    ensures |Join(sep, parts)| >= |parts[0]| && Join(sep, parts)[..|parts[0]|] == parts[0]
    ensures var last := parts[|parts| - 1];
      |Join(sep, parts)| >= |last| && Join(sep, parts)[|Join(sep, parts)| - |last|..] == last
    decreases |parts|
  {
    if |parts| > 1 {
      JoinEnds(sep, parts[1..]);
      var j := Join(sep, parts[1..]);
      assert Join(sep, parts) == parts[0] + sep + j;
      assert (parts[0] + sep + j)[|parts[0] + sep + j| - |parts[|parts| - 1]|..] == j[|j| - |parts[|parts| - 1]|..];
    }
  }
}
