// Small value helpers shared by the model: an Option type and the handful of
// string operations the Python code performs with built-ins (str(int),
// str.upper/str.lower on ASCII, `in`/re.search for a literal marker, str.strip,
// slicing from the end, str.rsplit).

module Wrappers {

  /** A value that may be missing (Python's None). */
  datatype Option<+T> = None | Some(value: T)
}

module Text {

  /** The decimal digit for 0 <= d < 10. */
  function Digit(d: nat): (c: char)
    requires d < 10
    ensures '0' <= c <= '9'
    ensures c as int - '0' as int == d
  {
    ['0', '1', '2', '3', '4', '5', '6', '7', '8', '9'][d]
  }

  predicate IsDigits(s: string) {
    forall i :: 0 <= i < |s| ==> '0' <= s[i] <= '9'
  }

  /** The value of a string of decimal digits (most significant first). */
  function DigitsValue(s: string): nat
    requires IsDigits(s)
  {
    if s == [] then 0
    else DigitsValue(s[..|s| - 1]) * 10 + (s[|s| - 1] as int - '0' as int)
  }

  /** Python's str(n) for a non-negative integer. */
  function NatStr(n: nat): (s: string)
    ensures |s| >= 1 && IsDigits(s)
    ensures n < 10 <==> |s| == 1
  {
    if n < 10 then [Digit(n)] else NatStr(n / 10) + [Digit(n % 10)]
  }

  /** Reading the decimal text of n gives n back. */
  lemma {:induction false} NatStrRoundTrip(n: nat)
    ensures DigitsValue(NatStr(n)) == n
  {
    if n >= 10 {
      NatStrRoundTrip(n / 10);
      var s := NatStr(n);
      assert s[..|s| - 1] == NatStr(n / 10);
    }
  }

  /** Python's str(i) for any integer: a minus sign before the magnitude. */
  function IntStr(i: int): (s: string)
    ensures |s| >= 1
    ensures (s[0] == '-') <==> i < 0
  {
    if i < 0 then "-" + NatStr(-i) else NatStr(i)
  }

  /** str.upper() restricted to ASCII letters (other characters are kept). */
  function UpperChar(c: char): char {
    if 'a' <= c <= 'z' then (c as int - 'a' as int + 'A' as int) as char else c
  }

  /** str.lower() restricted to ASCII letters (other characters are kept). */
  function LowerChar(c: char): char {
    if 'A' <= c <= 'Z' then (c as int - 'A' as int + 'a' as int) as char else c
  }

  function Upper(s: string): (r: string)
    ensures |r| == |s|
  {
    if s == [] then [] else [UpperChar(s[0])] + Upper(s[1..])
  }

  function Lower(s: string): (r: string)
    ensures |r| == |s|
  {
    if s == [] then [] else [LowerChar(s[0])] + Lower(s[1..])
  }

  /** str.upper() maps each character on its own. */
  lemma {:induction false} UpperAt(s: string)
    ensures forall i :: 0 <= i < |s| ==> Upper(s)[i] == UpperChar(s[i])
  {
    if s != [] {
      UpperAt(s[1..]);
      assert forall i :: 1 <= i < |s| ==> Upper(s)[i] == Upper(s[1..])[i - 1];
    }
  }

  /** str.lower() maps each character on its own. */
  lemma {:induction false} LowerAt(s: string)
    ensures forall i :: 0 <= i < |s| ==> Lower(s)[i] == LowerChar(s[i])
  {
    if s != [] {
      LowerAt(s[1..]);
      assert forall i :: 1 <= i < |s| ==> Lower(s)[i] == Lower(s[1..])[i - 1];
    }
  }

  /** `sub in s`: the marker occurs somewhere in s (re.search of a literal). */
  predicate Contains(s: string, sub: string) {
    exists i | 0 <= i <= |s| - |sub| :: OccursAt(s, sub, i)
  }

  /** The marker sub starts at position i of s. */
  predicate OccursAt(s: string, sub: string, i: int) {
    0 <= i <= |s| - |sub| && s[i..i + |sub|] == sub
  }

  /** s[-n:] in Python: the last n characters, or all of s when it is shorter. */
  function LastN(s: string, n: nat): (r: string)
    ensures |r| == if |s| <= n then |s| else n
    ensures s == s[..|s| - |r|] + r
  {
    if |s| <= n then s else s[|s| - n..]
  }

  /** s.lstrip(c) for a single character c. */
  function StripLeft(s: string, c: char): string
    decreases |s|
  {
    if s != [] && s[0] == c then StripLeft(s[1..], c) else s
  }

  /** s.rstrip(c) for a single character c. */
  function StripRight(s: string, c: char): string
    decreases |s|
  {
    if s != [] && s[|s| - 1] == c then StripRight(s[..|s| - 1], c) else s
  }

  /** s.strip(c): both ends stripped of c. */
  function Strip(s: string, c: char): string
  {
    StripRight(StripLeft(s, c), c)
  }

  /** lstrip keeps a suffix, removes only c and leaves no c in front. */
  lemma {:induction false} StripLeftIsSuffix(s: string, c: char)
    ensures var r := StripLeft(s, c);
      && |r| <= |s| && r == s[|s| - |r|..]
      && (r == [] || r[0] != c)
      && (forall i :: 0 <= i < |s| - |r| ==> s[i] == c)
    decreases |s|
  {
    if s != [] && s[0] == c {
      StripLeftIsSuffix(s[1..], c);
      var r := StripLeft(s, c);
      assert r == StripLeft(s[1..], c);
      assert forall i :: 1 <= i < |s| - |r| ==> s[i] == s[1..][i - 1];
    }
  }

  /** rstrip keeps a prefix, removes only c and leaves no c at the end. */
  lemma {:induction false} StripRightIsPrefix(s: string, c: char)
    ensures var r := StripRight(s, c);
      && |r| <= |s| && r == s[..|r|]
      && (r == [] || r[|r| - 1] != c)
      && (forall i :: |r| <= i < |s| ==> s[i] == c)
    decreases |s|
  {
    if s != [] && s[|s| - 1] == c {
      StripRightIsPrefix(s[..|s| - 1], c);
      var r := StripRight(s, c);
      assert r == StripRight(s[..|s| - 1], c);
      assert forall i :: |r| <= i < |s| - 1 ==> s[i] == s[..|s| - 1][i];
    }
  }

  /** What s.strip(c) removes and keeps: r is a slice of s with only c cut off each end. */
  lemma StripIsSlice(s: string, c: char)
    ensures var r := Strip(s, c);
      exists i, j :: 0 <= i <= j <= |s| && r == s[i..j]
        && (forall k :: 0 <= k < i ==> s[k] == c)
        && (forall k :: j <= k < |s| ==> s[k] == c)
        && (r == [] || (r[0] != c && r[|r| - 1] != c))
  {
    var l := StripLeft(s, c);
    StripLeftIsSuffix(s, c);
    var r := StripRight(l, c);
    StripRightIsPrefix(l, c);
    var i := |s| - |l|;
    var j := i + |r|;
    assert r == s[i..j];
    assert r != [] ==> r[0] == l[0];
    assert forall k :: j <= k < |s| ==> s[k] == l[k - i];
    assert 0 <= i <= j <= |s| && r == s[i..j]
      && (forall k :: 0 <= k < i ==> s[k] == c)
      && (forall k :: j <= k < |s| ==> s[k] == c)
      && (r == [] || (r[0] != c && r[|r| - 1] != c));
  }

  /** Where the segment that ends at j starts: just after the last c before j, or 0. */
  function SegmentStart(s: string, c: char, j: nat): (k: nat)
    requires j <= |s|
    ensures k <= j
    ensures forall i :: k <= i < j ==> s[i] != c
    ensures k == 0 || s[k - 1] == c
  {
    if j == 0 then 0 else if s[j - 1] == c then j else SegmentStart(s, c, j - 1)
  }

  /** s.rsplit(c, 1)[-1]: the part after the last c, or all of s when c does not occur. */
  function AfterLast(s: string, c: char): (r: string)
    ensures |r| <= |s| && r == s[|s| - |r|..]
    ensures c !in r
    ensures |r| == |s| || s[|s| - |r| - 1] == c
    ensures c !in s ==> r == s
  {
    s[SegmentStart(s, c, |s|)..]
  }

  /** Python's "sep".join(parts). */
  function Join(sep: string, parts: seq<string>): string {
    if parts == [] then ""
    else if |parts| == 1 then parts[0]
    else Join(sep, parts[..|parts| - 1]) + sep + parts[|parts| - 1]
  }

  /** s ends with t. */
  predicate EndsWith(s: string, t: string) {
    |t| <= |s| && s[|s| - |t|..] == t
  }

  /** The text both exception classes print: "{class name}: {reason}: {message}". */
  function ExceptionText(className: string, reason: string, message: string): string {
    className + ": " + reason + ": " + message
  }

  /** The printed text determines the message once the class and the reason are known. */
  lemma {:induction false} ExceptionTextDeterminesMessage(className: string, reason: string, m1: string, m2: string)
    requires ExceptionText(className, reason, m1) == ExceptionText(className, reason, m2)
    ensures m1 == m2
  {
    var p := className + ": " + reason + ": ";
    assert ExceptionText(className, reason, m1) == p + m1 && ExceptionText(className, reason, m2) == p + m2;
    assert m1 == ExceptionText(className, reason, m1)[|p|..];
    assert m2 == ExceptionText(className, reason, m2)[|p|..];
  }

  /** Appending in two steps is appending the concatenation. */
  lemma AppendAssoc<T>(a: seq<T>, b: seq<T>, c: seq<T>)
    ensures a + b + c == a + (b + c)
  {
  }

  /** Whatever is appended last is what the text ends with. */
  lemma EndsWithAppended(s: string, t: string)
    ensures EndsWith(s + t, t)
  {
    assert (s + t)[|s|..] == t;
  }
}
