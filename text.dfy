/**
 * The string primitives the services rely on: ASCII case folding (`toLowerCase`),
 * substring containment (`includes`), decimal rendering of a count (template
 * interpolation of a number) and the first capture group of `/key(.+)/`.
 */
module Text {
  import opened Types

  // ---------------------------------------------------------------------------
  // Case folding
  // ---------------------------------------------------------------------------

  predicate IsUpper(c: char) {
    'A' <= c <= 'Z'
  }

  function LowerChar(c: char): char {
    if IsUpper(c) then (c as int + 32) as char else c
  }

  /**
   * `s.toLowerCase()` restricted to the ASCII letters: each capital becomes its lower-case
   * letter, so none is left behind, and every other character is kept.
   */
  function Lower(s: string): (r: string)
    ensures |r| == |s|
    ensures forall i :: 0 <= i < |s| && IsUpper(s[i]) ==> r[i] as int == s[i] as int + 32
    ensures forall i :: 0 <= i < |s| ==> !IsUpper(r[i])
    ensures forall i :: 0 <= i < |s| && !IsUpper(s[i]) ==> r[i] == s[i]
  {
    seq(|s|, i requires 0 <= i < |s| => LowerChar(s[i]))
  }

  /** Folding twice is folding once, so a command that is already lower-case is its own fold. */
  lemma LowerIdempotent(s: string)
    ensures Lower(Lower(s)) == Lower(s)
  {
  }

  // ---------------------------------------------------------------------------
  // Containment
  // ---------------------------------------------------------------------------

  /** `t` occurs in `s` at position `i`. */
  predicate OccursAt(s: string, t: string, i: int) {
    0 <= i && i + |t| <= |s| && s[i..i + |t|] == t
  }

  /** `s.includes(t)`: some position of `s` holds an occurrence of `t`. */
  predicate Contains(s: string, t: string) {
    exists i :: 0 <= i <= |s| && OccursAt(s, t, i)
  }

  /** `s.indexOf(t, from)`: the scan for the leftmost occurrence at or after `from`. */
  function IndexOf(s: string, t: string, from: nat): (r: Option<nat>)
    ensures r.Some? ==> from <= r.value && OccursAt(s, t, r.value)
    ensures forall j :: from <= j && (r.None? || j < r.value) ==> !OccursAt(s, t, j)
    decreases |s| - from
  {
    if from + |t| > |s| then None
    else if s[from..from + |t|] == t then Some(from)
    else IndexOf(s, t, from + 1)
  }

  /** The scan finds an occurrence exactly when `includes` holds. */
  lemma ContainsIffIndexOf(s: string, t: string)
    ensures Contains(s, t) <==> IndexOf(s, t, 0).Some?
  {
    if Contains(s, t) {
      var i :| 0 <= i <= |s| && OccursAt(s, t, i);
      assert IndexOf(s, t, 0).None? ==> !OccursAt(s, t, i);
    }
  }

  /** Whatever contains `t + u` contains `t`: a test for a longer keyword is subsumed by one for its prefix. */
  lemma ContainsPrefix(s: string, t: string, u: string)
    requires Contains(s, t + u)
    ensures Contains(s, t)
  {
    var i :| 0 <= i <= |s| && OccursAt(s, t + u, i);
    assert s[i..i + |t|] == (t + u)[..|t|] == t;
    assert OccursAt(s, t, i);
  }

  // ---------------------------------------------------------------------------
  // Decimal rendering of counts
  // ---------------------------------------------------------------------------

  predicate IsDigit(c: char) {
    '0' <= c <= '9'
  }

  function DigitChar(d: nat): (c: char)
    requires d < 10
    ensures IsDigit(c) && c as int - '0' as int == d
  {
    ('0' as int + d) as char
  }

  /** The decimal text a JavaScript template literal prints for a non-negative integer. */
  function NatToString(n: nat): (r: string)
    ensures |r| > 0
    ensures forall i :: 0 <= i < |r| ==> IsDigit(r[i])
    ensures n < 10 <==> |r| == 1
    ensures r[0] != '0' || n == 0
    decreases n
  {
    if n < 10 then [DigitChar(n)] else NatToString(n / 10) + [DigitChar(n % 10)]
  }

  /** The number a string of decimal digits denotes. */
  function DecimalValue(s: string): nat
    requires forall i :: 0 <= i < |s| ==> IsDigit(s[i])
  {
    if s == [] then 0
    else
      var last := s[|s| - 1];
      assert IsDigit(last);
      DecimalValue(s[..|s| - 1]) * 10 + (last as int - '0' as int)
  }

  /** Reading back a rendered count gives the count: the text states the number exactly. */
  lemma {:induction false} DecimalRoundTrip(n: nat)
    ensures DecimalValue(NatToString(n)) == n
    decreases n
  {
    if n >= 10 {
      DecimalRoundTrip(n / 10);
      var r := NatToString(n);
      assert r[..|r| - 1] == NatToString(n / 10);
    }
  }

  // ---------------------------------------------------------------------------
  // The first capture group of `/key(.+)/`
  // ---------------------------------------------------------------------------

  /** The characters a regular-expression `.` refuses to match. */
  predicate IsLineTerminator(c: char) {
    c == '\n' || c == '\r' || c == '\U{2028}' || c == '\U{2029}'
  }

  /** `/key(.+)/` can start a match at `i`: `key` occurs there and a matchable character follows. */
  predicate MatchesAt(s: string, key: string, i: nat) {
    i + |key| < |s| && s[i..i + |key|] == key && !IsLineTerminator(s[i + |key|])
  }

  /** The leftmost position at or after `from` where a match starts. */
  function FirstMatch(s: string, key: string, from: nat): (r: Option<nat>)
    ensures r.Some? ==> from <= r.value && MatchesAt(s, key, r.value)
    ensures forall j: nat :: from <= j && (r.None? || j < r.value) ==> !MatchesAt(s, key, j)
    decreases |s| - from
  {
    if from >= |s| then None
    else if MatchesAt(s, key, from) then Some(from)
    else FirstMatch(s, key, from + 1)
  }

  /** Where the greedy `.+` that starts at `j` stops: the next line terminator or the end. */
  function LineEnd(s: string, j: nat): (k: nat)
    requires j <= |s|
    ensures j <= k <= |s|
    ensures k == |s| || IsLineTerminator(s[k])
    ensures forall m :: j <= m < k ==> !IsLineTerminator(s[m])
    decreases |s| - j
  {
    if j == |s| || IsLineTerminator(s[j]) then j else LineEnd(s, j + 1)
  }

  /** On a line without terminators the greedy capture runs to the end of the string. */
  lemma {:induction false} LineEndAtEnd(s: string, j: nat)
    requires j <= |s|
    requires forall m :: j <= m < |s| ==> !IsLineTerminator(s[m])
    ensures LineEnd(s, j) == |s|
    decreases |s| - j
  {
    if j < |s| {
      LineEndAtEnd(s, j + 1);
    }
  }

  /** `i` is the leftmost position where `/key(.+)/` can match. */
  predicate LeftmostMatch(s: string, key: string, i: nat) {
    MatchesAt(s, key, i) && forall j: nat :: j < i ==> !MatchesAt(s, key, j)
  }

  /**
   * `d` is what the greedy `(.+)` takes after `key` at `i`: the text right after the key,
   * free of line terminators and ending at a line terminator or at the end of `s`.
   */
  predicate GreedyCapture(s: string, key: string, i: nat, d: string) {
    var j := i + |key|;
    && j + |d| <= |s|
    && s[j..j + |d|] == d
    && (forall m :: 0 <= m < |d| ==> !IsLineTerminator(d[m]))
    && (j + |d| == |s| || IsLineTerminator(s[j + |d|]))
  }

  /** Group 1 of `s.match(/key(.+)/)`, or `None` where `match` returns null. */
  function Capture(s: string, key: string): (r: Option<string>)
    ensures r.None? <==> forall i: nat :: !MatchesAt(s, key, i)
    ensures r.Some? ==> |r.value| > 0
    ensures r.Some? ==> exists i: nat :: LeftmostMatch(s, key, i) && GreedyCapture(s, key, i, r.value)
    ensures r.Some? ==> Contains(s, key + r.value)
  {
    match FirstMatch(s, key, 0)
    case None => None
    case Some(i) =>
      var d := s[i + |key|..LineEnd(s, i + |key|)];
      assert s[i..i + |key| + |d|] == key + d;
      assert OccursAt(s, key + d, i);
      assert GreedyCapture(s, key, i, d);
      Some(d)
  }

  /** The leftmost match and the greedy capture after it determine the group: no other text qualifies. */
  lemma CaptureDetermined(s: string, key: string, i: nat, d: string)
    requires LeftmostMatch(s, key, i) && GreedyCapture(s, key, i, d)
    ensures Capture(s, key) == Some(d)
  {
    assert FirstMatch(s, key, 0) == Some(i);
    var j := i + |key|;
    assert LineEnd(s, j) == j + |d| by {
      forall m | j <= m < j + |d|
        ensures !IsLineTerminator(s[m])
      {
        assert s[m] == d[m - j];
      }
    }
  }
}
