/** ASCII string helpers standing in for Python's `str` methods. */
module Text {

  /** Python's `str.isspace` restricted to ASCII: space, \t \n \v \f \r and the separators 0x1c..0x1f. */
  predicate IsSpace(ch: char) {
    ch == ' ' || 9 <= ch as int <= 13 || 28 <= ch as int <= 31
  }

  /** Drops leading whitespace. */
  function StripLeft(s: string): (r: string)
    ensures |r| <= |s| && r == s[|s| - |r|..]
    ensures forall i :: 0 <= i < |s| - |r| ==> IsSpace(s[i])
    ensures |r| > 0 ==> !IsSpace(r[0])
  {
    if |s| > 0 && IsSpace(s[0]) then StripLeft(s[1..]) else s
  }

  /** Drops trailing whitespace. */
  function StripRight(s: string): (r: string)
    ensures |r| <= |s| && r == s[..|r|]
    ensures forall i :: |r| <= i < |s| ==> IsSpace(s[i])
    ensures |r| > 0 ==> !IsSpace(r[|r| - 1])
  {
    if |s| > 0 && IsSpace(s[|s| - 1]) then StripRight(s[..|s| - 1]) else s
  }

  /**
   * r is the slice of s that starts at offset a, and every character of s
   * outside that slice is whitespace.
   */
  predicate TrimmedSlice(s: string, r: string, a: int) {
    && 0 <= a && a + |r| <= |s|
    && (forall i :: 0 <= i < |r| ==> r[i] == s[a + i])
    && (forall i :: 0 <= i < a ==> IsSpace(s[i]))
    && (forall i :: a + |r| <= i < |s| ==> IsSpace(s[i]))
  }

  /**
   * Python's `str.strip()` with no argument, over ASCII whitespace: only a
   * whitespace prefix and a whitespace suffix are removed, and what is left
   * has no whitespace at either end.
   */
  function Strip(s: string): (r: string)
    ensures |r| <= |s|
    ensures |r| > 0 ==> !IsSpace(r[0]) && !IsSpace(r[|r| - 1])
    ensures TrimmedSlice(s, r, |s| - |StripLeft(s)|)
  {
    var t := StripLeft(s);
    var r := StripRight(t);
    StripSlice(s, t, r);
    r
  }

  /** Trimming a suffix of s at both ends leaves a slice of s with whitespace outside it. */
  lemma StripSlice(s: string, t: string, r: string)
    requires |t| <= |s| && t == s[|s| - |t|..]
    requires forall i :: 0 <= i < |s| - |t| ==> IsSpace(s[i])
    requires |r| <= |t| && r == t[..|r|]
    requires forall i :: |r| <= i < |t| ==> IsSpace(t[i])
    ensures TrimmedSlice(s, r, |s| - |t|)
  {
    var a := |s| - |t|;
    forall i | 0 <= i < |r|
      ensures r[i] == s[a + i]
    {
      assert r[i] == t[i];
    }
    forall i | a + |r| <= i < |s|
      ensures IsSpace(s[i])
    {
      assert s[i] == t[i - a];
    }
  }

  /** A string with no whitespace at either end. */
  predicate Stripped(s: string) {
    |s| == 0 || (!IsSpace(s[0]) && !IsSpace(s[|s| - 1]))
  }

  /** Stripping leaves an already stripped string alone, so it is idempotent. */
  lemma StripStripped(s: string)
    requires Stripped(s)
    ensures Strip(s) == s
  {
  }

  /** ASCII lower-casing of one character; anything but A..Z is kept. */
  function LowerChar(ch: char): char {
    if 'A' <= ch <= 'Z' then (ch as int + 32) as char else ch
  }

  /** Python's `str.lower()` over ASCII letters. */
  function Lower(s: string): (r: string)
    ensures |r| == |s|
    ensures forall i :: 0 <= i < |s| ==> r[i] == LowerChar(s[i])
  {
    seq(|s|, i requires 0 <= i < |s| => LowerChar(s[i]))
  }

  /** Lower-casing twice is lower-casing once. */
  lemma LowerIdempotent(s: string)
    ensures Lower(Lower(s)) == Lower(s)
  {
  }

  /** Lower-casing neither creates nor removes whitespace at the ends. */
  lemma LowerKeepsStripped(s: string)
    requires Stripped(s)
    ensures Stripped(Lower(s))
  {
  }

  /** The number of occurrences of a character. */
  function Count(s: string, ch: char): nat {
    if |s| == 0 then 0 else (if s[0] == ch then 1 else 0) + Count(s[1..], ch)
  }

  /** Counting distributes over concatenation. */
  lemma {:induction false} CountConcat(a: string, b: string, ch: char)
    ensures Count(a + b, ch) == Count(a, ch) + Count(b, ch)
  {
    if |a| > 0 {
      assert (a + b)[1..] == a[1..] + b;
      CountConcat(a[1..], b, ch);
    } else {
      assert a + b == b;
    }
  }

  /** A string without the character counts none of it. */
  lemma {:induction false} CountAbsent(s: string, ch: char)
    requires ch !in s
    ensures Count(s, ch) == 0
  {
    if |s| > 0 {
      CountAbsent(s[1..], ch);
    }
  }
}
