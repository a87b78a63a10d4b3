/** The three JavaScript string built-ins the agent's input handling relies on:
    `trim`, `toLowerCase` and `includes`, over strings as sequences of characters. */
module Text {

  /** The code points `String.prototype.trim` removes: ECMAScript's WhiteSpace
      (tab, vertical tab, form feed, space, no-break space, byte-order mark and
      the other Unicode space separators) and LineTerminator characters. */
  predicate IsWhitespace(c: char) {
    c == ' ' || c == '\t' || c == '\n' || c == '\r'
    || c == '\U{000B}' || c == '\U{000C}' || c == '\U{00A0}' || c == '\U{1680}'
    || ('\U{2000}' <= c <= '\U{200A}')
    || c == '\U{2028}' || c == '\U{2029}' || c == '\U{202F}' || c == '\U{205F}'
    || c == '\U{3000}' || c == '\U{FEFF}'
  }

  predicate AllWhitespace(s: string) {
    forall i :: 0 <= i < |s| ==> IsWhitespace(s[i])
  }

  /** Every character of `s` from index `lo` up to `hi` is whitespace. */
  predicate WhitespaceBetween(s: string, lo: int, hi: int) {
    0 <= lo <= hi <= |s| && forall i :: lo <= i < hi ==> IsWhitespace(s[i])
  }

  /** Drops the leading whitespace: the result is the longest suffix that does
      not start with whitespace, and everything dropped is whitespace. */
  function TrimStart(s: string): (r: string)
    ensures |r| <= |s| && r == s[|s| - |r|..]
    ensures WhitespaceBetween(s, 0, |s| - |r|)
    ensures r == [] || !IsWhitespace(r[0])
  {
    if |s| > 0 && IsWhitespace(s[0]) then TrimStart(s[1..]) else s
  }

  /** Drops the trailing whitespace: the result is the longest prefix that does
      not end with whitespace, and everything dropped is whitespace. */
  function TrimEnd(s: string): (r: string)
    ensures |r| <= |s| && r == s[..|r|]
    ensures WhitespaceBetween(s, |r|, |s|)
    ensures r == [] || !IsWhitespace(r[|r| - 1])
  {
    if |s| > 0 && IsWhitespace(s[|s| - 1]) then TrimEnd(s[..|s| - 1]) else s
  }

  /** `r` sits in `s` at offset `lead` with only whitespace on either side. */
  predicate TrimmedAt(s: string, r: string, lead: int) {
    0 <= lead <= |s| - |r| && s[lead..lead + |r|] == r
    && WhitespaceBetween(s, 0, lead) && WhitespaceBetween(s, lead + |r|, |s|)
  }

  /** `String.prototype.trim`: the input with whitespace removed from both ends.
      It is empty exactly when the input is all whitespace (the `!message`
      test of a send), and otherwise starts and ends with a non-space. */
  function Trim(s: string): (r: string)
    ensures exists lead :: TrimmedAt(s, r, lead)
    ensures r == [] <==> AllWhitespace(s)
    ensures r != [] ==> !IsWhitespace(r[0]) && !IsWhitespace(r[|r| - 1])
  {
    var front := TrimStart(s);
    var r := TrimEnd(front);
    TrimParts(s, front, r);
    r
  }

  /** The facts `Trim` promises, from those of its two halves. */
  lemma TrimParts(s: string, front: string, r: string)
    requires |front| <= |s| && front == s[|s| - |front|..]
    requires WhitespaceBetween(s, 0, |s| - |front|)
    requires front == [] || !IsWhitespace(front[0])
    requires |r| <= |front| && r == front[..|r|]
    requires WhitespaceBetween(front, |r|, |front|)
    ensures TrimmedAt(s, r, |s| - |front|)
    ensures r == [] <==> AllWhitespace(s)
    ensures r != [] ==> !IsWhitespace(r[0])
  {
    var lead := |s| - |front|;
    assert s[lead..lead + |r|] == r;
    forall i | lead + |r| <= i < |s| ensures IsWhitespace(s[i]) {
      assert front[i - lead] == s[i];
    }
    if r != [] {
      assert r[0] == front[0] == s[lead];
    }
  }

  /** `w` occurs in `s` starting at index `i`. */
  predicate OccursAt(s: string, w: string, i: int) {
    0 <= i <= |s| - |w| && s[i..i + |w|] == w
  }

  /** `String.prototype.includes`, computed by trying each starting position. */
  predicate Includes(s: string, w: string)
    decreases |s|
  {
    (|w| <= |s| && s[..|w|] == w) || (|s| > 0 && Includes(s[1..], w))
  }

  /** `Includes` holds exactly when `w` occurs somewhere in `s`. */
  lemma {:induction false} IncludesIff(s: string, w: string)
    ensures Includes(s, w) <==> exists i :: OccursAt(s, w, i)
    decreases |s|
  {
    if |w| <= |s| && s[..|w|] == w {
      assert OccursAt(s, w, 0);
    } else if |s| == 0 {
      assert forall i :: !OccursAt(s, w, i);
    } else {
      IncludesIff(s[1..], w);
      forall i | OccursAt(s, w, i) ensures OccursAt(s[1..], w, i - 1) {
        assert i != 0;
        assert s[1..][i - 1..i - 1 + |w|] == s[i..i + |w|];
      }
      forall i | OccursAt(s[1..], w, i) ensures OccursAt(s, w, i + 1) {
        assert s[1..][i..i + |w|] == s[i + 1..i + 1 + |w|];
      }
    }
  }

  /** Occurrence is transitive: a string that contains `u` contains everything `u` contains. */
  lemma IncludesTransitive(s: string, u: string, w: string)
    requires Includes(s, u) && Includes(u, w)
    ensures Includes(s, w)
  {
    IncludesIff(s, u);
    IncludesIff(u, w);
    var i :| OccursAt(s, u, i);
    var j :| OccursAt(u, w, j);
    forall k | 0 <= k < |w| ensures s[i + j + k] == w[k] {
      assert u[j + k] == s[i + j + k];
      assert u[j..j + |w|][k] == w[k];
    }
    assert s[i + j..i + j + |w|] == w;
    assert OccursAt(s, w, i + j);
    IncludesIff(s, w);
  }

  /** What `toLowerCase` makes of one character, for every character whose
      lower-case form contains an ASCII letter: A-Z, KELVIN SIGN (U+212A, which
      becomes `k`) and LATIN CAPITAL LETTER I WITH DOT ABOVE (U+0130, which
      becomes `i` followed by COMBINING DOT ABOVE). Every other character is
      kept as it is. */
  function LowerChar(c: char): string {
    if 'A' <= c <= 'Z' then [(c as int + 32) as char]
    else if c == '\U{212A}' then "k"
    else if c == '\U{0130}' then "i\U{0307}"
    else [c]
  }

  predicate IsUpperAscii(c: char) {
    'A' <= c <= 'Z'
  }

  /** `String.prototype.toLowerCase`, character by character. No upper-case
      ASCII letter survives, and the text never gets shorter. */
  function Lower(s: string): (r: string)
    ensures |r| >= |s|
    ensures forall i :: 0 <= i < |r| ==> !IsUpperAscii(r[i])
  {
    if s == [] then [] else LowerChar(s[0]) + Lower(s[1..])
  }

  /** Lower-casing works piece by piece. */
  lemma {:induction false} LowerAppend(a: string, b: string)
    ensures Lower(a + b) == Lower(a) + Lower(b)
  {
    if a == [] {
      assert a + b == b;
    } else {
      assert (a + b)[0] == a[0];
      assert (a + b)[1..] == a[1..] + b;
      LowerAppend(a[1..], b);
      var head := LowerChar(a[0]);
      calc {
        Lower(a + b);
        head + Lower(a[1..] + b);
        head + (Lower(a[1..]) + Lower(b));
        { assert head + (Lower(a[1..]) + Lower(b)) == (head + Lower(a[1..])) + Lower(b); }
        Lower(a) + Lower(b);
      }
    }
  }

  /** Lower-case ASCII letters and spaces only. */
  predicate IsPlain(w: string) {
    forall i :: 0 <= i < |w| ==> 'a' <= w[i] <= 'z' || w[i] == ' '
  }

  /** Lower-case ASCII letters and spaces are left as they are. */
  lemma {:induction false} LowerPlain(w: string)
    requires IsPlain(w)
    ensures Lower(w) == w
  {
    if w != [] {
      assert !IsUpperAscii(w[0]) && w[0] != '\U{212A}' && w[0] != '\U{0130}';
      assert forall i :: 0 <= i < |w[1..]| ==> w[1..][i] == w[i + 1];
      LowerPlain(w[1..]);
    }
  }

  /** A word that lower-casing leaves alone, found in a text, is still found
      after lower-casing the text. */
  lemma IncludesLower(s: string, w: string)
    requires Lower(w) == w
    requires Includes(s, w)
    ensures Includes(Lower(s), w)
  {
    IncludesIff(s, w);
    var i :| OccursAt(s, w, i);
    var before, after := s[..i], s[i + |w|..];
    assert s == before + w + after;
    LowerAppend(before + w, after);
    LowerAppend(before, w);
    var low := Lower(s);
    assert low == Lower(before) + w + Lower(after);
    OccursBetween(Lower(before), w, Lower(after));
    IncludesIff(low, w);
  }

  /** A word placed between two strings occurs right after the first. */
  lemma OccursBetween(a: string, w: string, b: string)
    ensures OccursAt(a + w + b, w, |a|)
  {
    assert (a + w + b)[|a|..|a| + |w|] == w;
  }
}
