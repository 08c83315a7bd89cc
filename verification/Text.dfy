/** The text operations the services apply to client input. */
module Text {
  predicate IsSpace(c: char) {
    c == ' ' || '\t' <= c <= '\r' || c == '\U{00A0}' || c == '\U{FEFF}' || c == '\U{1680}' ||
    '\U{2000}' <= c <= '\U{200A}' || c == '\U{2028}' || c == '\U{2029}' || c == '\U{202F}' || c == '\U{205F}' || c == '\U{3000}'
  }

  function TrimStart(s: string): (r: string)
    ensures |r| <= |s| && (|r| > 0 ==> !IsSpace(r[0]))
  {
    if |s| > 0 && IsSpace(s[0]) then TrimStart(s[1..]) else s
  }

  function TrimEnd(s: string): (r: string)
    ensures r <= s && (|r| > 0 ==> !IsSpace(r[|r| - 1]))
  {
    if |s| > 0 && IsSpace(s[|s| - 1]) then TrimEnd(s[..|s| - 1]) else s
  }

  function Trim(s: string): (r: string)
    ensures |r| > 0 ==> !IsSpace(r[0]) && !IsSpace(r[|r| - 1])
  {
    TrimEnd(TrimStart(s))
  }

  /** Trimming takes whitespace off both ends and nothing else. */
  lemma {:induction false} TrimTakesOffWhitespace(s: string) returns (from: nat, to: nat)
    ensures from <= to <= |s| && Trim(s) == s[from..to]
    ensures forall i :: 0 <= i < |s| && !(from <= i < to) ==> IsSpace(s[i])
    ensures from < to ==> !IsSpace(s[from]) && !IsSpace(s[to - 1])
  {
    from := StartOf(s);
    var length := EndOf(s[from..]);
    to := from + length;
    assert s[from..][..length] == s[from..to];
    forall i | to <= i < |s| ensures IsSpace(s[i]) {
      assert s[i] == s[from..][i - from];
    }
  }

  lemma {:induction false} StartOf(s: string) returns (from: nat)
    ensures from <= |s| && TrimStart(s) == s[from..]
    ensures forall i :: 0 <= i < from ==> IsSpace(s[i])
  {
    from := 0;
    if |s| > 0 && IsSpace(s[0]) {
      var rest := StartOf(s[1..]);
      from := rest + 1;
      assert forall i :: 0 < i < from ==> s[i] == s[1..][i - 1];
    }
  }

  lemma {:induction false} EndOf(s: string) returns (to: nat)
    ensures to <= |s| && TrimEnd(s) == s[..to]
    ensures forall i :: to <= i < |s| ==> IsSpace(s[i])
  {
    to := |s|;
    if |s| > 0 && IsSpace(s[|s| - 1]) {
      to := EndOf(s[..|s| - 1]);
    }
  }

  function LowerChar(c: char): (r: char) {
    if 'A' <= c <= 'Z' then c - 'A' + 'a' else c
  }

  function Lower(s: string): (r: string)
    ensures |r| == |s|
  {
    seq(|s|, i requires 0 <= i < |s| => LowerChar(s[i]))
  }

  /** Lower-casing as far as plain keywords can tell: the Kelvin sign is the one other character that becomes an ASCII letter. */
  function Folded(c: char): (r: char) {
    if c == '\U{212A}' then 'k' else LowerChar(c)
  }

  predicate OccursAt(s: string, word: string, i: int) {
    0 <= i <= |s| - |word| && s[i..i + |word|] == word
  }

  predicate Contains(s: string, word: string) {
    exists i :: 0 <= i <= |s| - |word| && OccursAt(s, word, i)
  }

  /** The order in which plain text keys are listed. */
  predicate AtMost(a: string, b: string) {
    |a| == 0 || (|b| > 0 && (a[0] < b[0] || (a[0] == b[0] && AtMost(a[1..], b[1..]))))
  }

  /** The first character in which two texts differ decides, and a text comes after its beginnings. */
  lemma {:induction false} AtMostIsLexicographic(a: string, b: string, n: nat)
    requires n <= |a| && n <= |b| && a[..n] == b[..n]
    ensures n == |a| ==> AtMost(a, b)
    ensures n == |b| < |a| ==> !AtMost(a, b)
    ensures n < |a| && n < |b| && a[n] < b[n] ==> AtMost(a, b) && !AtMost(b, a)
  {
    if n > 0 {
      assert a[0] == a[..n][0] == b[0];
      assert a[1..][..n - 1] == a[..n][1..] == b[1..][..n - 1];
      AtMostIsLexicographic(a[1..], b[1..], n - 1);
    }
  }

  lemma {:induction false} AtMostIsTotal(a: string, b: string)
    ensures AtMost(a, b) || AtMost(b, a)
  {
    if |a| > 0 && |b| > 0 && a[0] == b[0] {
      AtMostIsTotal(a[1..], b[1..]);
    }
  }

  lemma {:induction false} AtMostIsTransitive(a: string, b: string, c: string)
    requires AtMost(a, b) && AtMost(b, c)
    ensures AtMost(a, c)
  {
    if |a| > 0 && |c| > 0 && a[0] == b[0] == c[0] {
      AtMostIsTransitive(a[1..], b[1..], c[1..]);
    }
  }
}
