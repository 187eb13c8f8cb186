/**
 * Python's `str.rstrip(chars)` and `str.strip()`, and the substring test
 * behind `sub in s`.
 */
module Text {

  /**
   * The characters for which Python's `str.isspace()` holds; `str.strip()`
   * with no argument removes exactly these.
   */
  predicate IsSpace(c: char)
  {
    || '\t' <= c <= '\r'                 // tab, line feed, vertical tab, form feed, carriage return
    || '\U{1C}' <= c <= '\U{1F}'         // information separators
    || c == ' ' || c == '\U{85}' || c == '\U{A0}' || c == '\U{1680}'
    || '\U{2000}' <= c <= '\U{200A}'     // en quad .. hair space
    || c == '\U{2028}' || c == '\U{2029}' || c == '\U{202F}' || c == '\U{205F}' || c == '\U{3000}'
  }

  /**
   * `s.rstrip(chars)`, where `drop` holds exactly of the characters of
   * `chars`: the longest prefix of `s` that leaves only characters of
   * `chars` behind and does not itself end in one of them.
   */
  function RStrip(s: string, drop: char -> bool): (r: string)
    ensures r <= s
    ensures forall i | |r| <= i < |s| :: drop(s[i])
    ensures r == [] || !drop(r[|r| - 1])
    decreases |s|
  {
    if |s| > 0 && drop(s[|s| - 1]) then RStrip(s[..|s| - 1], drop) else s
  }

  /** `s.strip()`: leading whitespace removed one character at a time, then trailing whitespace. */
  function Strip(s: string): (r: string)
    decreases |s|
  {
    if |s| > 0 && IsSpace(s[0]) then Strip(s[1..]) else RStrip(s, IsSpace)
  }

  /** `sub in s` for two strings: `sub` occurs in `s` as a contiguous block. */
  predicate Contains(s: string, sub: string)
    decreases |s|
  {
    sub <= s || (|s| > 0 && Contains(s[1..], sub))
  }

  /** The three properties of `RStrip` determine its result. */
  lemma RStripCharacterised(s: string, drop: char -> bool, r: string)
    requires r <= s
    requires forall i | |r| <= i < |s| :: drop(s[i])
    requires r == [] || !drop(r[|r| - 1])
    ensures r == RStrip(s, drop)
  {
    var t := RStrip(s, drop);
    assert r == s[..|r|] && t == s[..|t|];
  }

  /** Characters of `chars` appended to `s` are all removed again. */
  lemma {:induction false} RStripIgnoresTrailing(s: string, t: string, drop: char -> bool)
    requires forall i | 0 <= i < |t| :: drop(t[i])
    ensures RStrip(s + t, drop) == RStrip(s, drop)
    decreases |t|
  {
    if t == [] {
      assert s + t == s;
    } else {
      var u := t[..|t| - 1];
      assert (s + t)[..|s + t| - 1] == s + u;
      RStripIgnoresTrailing(s, u, drop);
    }
  }

  /** `s.strip()` is empty exactly when `s` is whitespace only. */
  lemma {:induction false} StripEmptyIffBlank(s: string)
    ensures Strip(s) == [] <==> forall i | 0 <= i < |s| :: IsSpace(s[i])
    decreases |s|
  {
    if |s| > 0 && IsSpace(s[0]) {
      StripEmptyIffBlank(s[1..]);
      if forall i | 0 <= i < |s[1..]| :: IsSpace(s[1..][i]) {
        forall i | 0 <= i < |s| ensures IsSpace(s[i]) {
          if i > 0 { assert s[i] == s[1..][i - 1]; }
        }
      }
    } else if |s| > 0 {
      assert |RStrip(s, IsSpace)| > 0;
    }
  }

  /** A string that starts with a non-space character keeps it first when stripped. */
  lemma StripKeepsFirst(s: string)
    requires |s| > 0 && !IsSpace(s[0])
    ensures |Strip(s)| > 0 && Strip(s)[0] == s[0]
  {
    var r := RStrip(s, IsSpace);
    assert |r| > 0;
    assert r[0] == s[0];
  }

  /** Stripping whitespace padding from a string without outer whitespace gives that string back. */
  lemma {:induction false} StripPadded(w1: string, t: string, w2: string)
    requires forall i | 0 <= i < |w1| :: IsSpace(w1[i])
    requires forall i | 0 <= i < |w2| :: IsSpace(w2[i])
    requires |t| > 0 && !IsSpace(t[0]) && !IsSpace(t[|t| - 1])
    ensures Strip(w1 + t + w2) == t
    decreases |w1|
  {
    if w1 == [] {
      assert w1 + t + w2 == t + w2;
      RStripIgnoresTrailing(t, w2, IsSpace);
    } else {
      assert (w1 + t + w2)[0] == w1[0];
      assert (w1 + t + w2)[1..] == w1[1..] + t + w2;
      StripPadded(w1[1..], t, w2);
    }
  }
}
