/** String operations the planner relies on: Python's `in` on strings,
    `str.lower()`, `str.strip()` and `str()` of a non-negative int.
    Only ASCII behaviour is modelled. */
module Text {
  import opened Base

  /** `t` occurs in `s` starting at position `i`. */
  predicate OccursAt(s: string, t: string, i: int)
  {
    0 <= i && i + |t| <= |s| && s[i..i + |t|] == t
  }

  /** The first position at which `t` occurs in `s` (Python's `s.find(t)`). */
  function IndexOf(s: string, t: string): (r: Option<nat>)
    ensures r.Some? ==> OccursAt(s, t, r.value)
    ensures r.Some? ==> forall j :: 0 <= j < r.value ==> !OccursAt(s, t, j)
    ensures r.None? ==> forall j :: !OccursAt(s, t, j)
    decreases |s|
  {
    if |t| <= |s| && s[..|t|] == t then
      Some(0)
    else if |s| <= |t| then
      None
    else
      match IndexOf(s[1..], t)
      case None =>
        assert forall j :: 1 <= j ==> OccursAt(s, t, j) ==> OccursAt(s[1..], t, j - 1);
        None
      case Some(k) =>
        assert OccursAt(s[1..], t, k);
        assert forall j :: 1 <= j <= k ==> OccursAt(s, t, j) ==> OccursAt(s[1..], t, j - 1);
        Some(k + 1)
  }

  /** Python's `t in s`. */
  predicate Contains(s: string, t: string)
  {
    IndexOf(s, t).Some?
  }

  /** Whatever surrounds `t`, the concatenation contains `t`. */
  lemma ContainsInfix(a: string, t: string, b: string)
    ensures Contains(a + t + b, t)
  {
    assert OccursAt(a + t + b, t, |a|);
  }

  /** A string that contains `t` still contains it with text appended. */
  lemma ContainsPrefixOf(a: string, b: string, t: string)
    requires Contains(a, t)
    ensures Contains(a + b, t)
  {
    var i := IndexOf(a, t).value;
    assert (a + b)[i..i + |t|] == a[i..i + |t|];
    assert OccursAt(a + b, t, i);
  }

  /** Containment is transitive: a substring of a substring is a substring. */
  lemma ContainsTransitive(s: string, m: string, t: string)
    requires Contains(s, m) && Contains(m, t)
    ensures Contains(s, t)
  {
    var i := IndexOf(s, m).value;
    var j := IndexOf(m, t).value;
    forall k | 0 <= k < |t| ensures s[i + j + k] == t[k] {
      assert t[k] == m[j..j + |t|][k] == m[j + k];
      assert m[j + k] == s[i..i + |m|][j + k] == s[i + j + k];
    }
    assert s[i + j..i + j + |t|] == t;
    assert OccursAt(s, t, i + j);
  }

  /** What a string contains with text around it, the string contains alone. */
  lemma ContainsWithin(s: string, a: string, t: string, b: string)
    requires Contains(s, a + t + b)
    ensures Contains(s, t)
  {
    ContainsInfix(a, t, b);
    ContainsTransitive(s, a + t + b, t);
  }

  /** Both halves of a contained string are contained. */
  lemma ContainsSplit(s: string, x: string, y: string)
    requires Contains(s, x + y)
    ensures Contains(s, x) && Contains(s, y)
  {
    assert x + y == [] + x + y == x + y + [];
    ContainsWithin(s, [], x, y);
    ContainsWithin(s, x, y, []);
  }

  /** Two adjacent parts of a contained string are contained together. */
  lemma ContainsAdjacent(s: string, a: string, t: string, u: string, b: string)
    requires Contains(s, a + t + u + b)
    ensures Contains(s, t + u)
  {
    assert a + t + u + b == a + (t + u) + b;
    ContainsWithin(s, a, t + u, b);
  }

  /** ASCII `str.lower()` of one character. */
  function LowerChar(c: char): (r: char)
    ensures 'A' <= c <= 'Z' ==> 'a' <= r <= 'z' && r as int - c as int == 32
    ensures !('A' <= c <= 'Z') ==> r == c
  {
    if 'A' <= c <= 'Z' then (c as int + 32) as char else c
  }

  /** ASCII `str.lower()`. */
  function Lower(s: string): (r: string)
    ensures |r| == |s|
    ensures forall i :: 0 <= i < |s| ==> r[i] == LowerChar(s[i])
  {
    seq(|s|, i requires 0 <= i < |s| => LowerChar(s[i]))
  }

  /** The ASCII characters for which Python's `str.isspace()` holds. */
  predicate IsSpace(c: char)
  {
    c == ' ' || c == '\t' || c == '\n' || c == '\r' || c == '\U{0B}' || c == '\U{0C}'
    || ('\U{1C}' <= c <= '\U{1F}')
  }

  /** Where the text of `s` starts, scanning forward from `i` past whitespace. */
  function TextStart(s: string, i: nat): (j: nat)
    requires i <= |s|
    ensures i <= j <= |s|
    ensures forall k :: i <= k < j ==> IsSpace(s[k])
    ensures j < |s| ==> !IsSpace(s[j])
    decreases |s| - i
  {
    if i < |s| && IsSpace(s[i]) then TextStart(s, i + 1) else i
  }

  /** Where the text of `s` ends, scanning back from `j` past whitespace but
      not below `lo`. */
  function TextEnd(s: string, lo: nat, j: nat): (e: nat)
    requires lo <= j <= |s|
    ensures lo <= e <= j
    ensures forall k :: e <= k < j ==> IsSpace(s[k])
    ensures lo < e ==> !IsSpace(s[e - 1])
    decreases j
  {
    if lo < j && IsSpace(s[j - 1]) then TextEnd(s, lo, j - 1) else j
  }

  /** `str.strip()`: the input with whitespace cut from both ends. */
  function Strip(s: string): (r: string)
    ensures r != [] ==> !IsSpace(r[0]) && !IsSpace(r[|r| - 1])
  {
    var i := TextStart(s, 0);
    s[i..TextEnd(s, i, |s|)]
  }

  /** What `strip()` returns is the slice of its input that starts at the
      first non-whitespace character; everything cut on either side is
      whitespace. */
  lemma StripSlice(s: string)
    ensures var i, r := TextStart(s, 0), Strip(s);
      && i + |r| <= |s| && r == s[i..i + |r|]
      && (forall k :: 0 <= k < i ==> IsSpace(s[k]))
      && (forall k :: i + |r| <= k < |s| ==> IsSpace(s[k]))
  {
  }

  /** A string without surrounding whitespace is its own `strip()`. */
  lemma StripUnchanged(s: string)
    requires s != [] ==> !IsSpace(s[0]) && !IsSpace(s[|s| - 1])
    ensures Strip(s) == s
  {
    assert TextStart(s, 0) == 0;
    assert TextEnd(s, 0, |s|) == |s|;
  }

  /** One decimal digit. */
  function DigitChar(d: nat): (c: char)
    requires d < 10
    ensures '0' <= c <= '9' && c as int - '0' as int == d
  {
    (d + '0' as int) as char
  }

  /** `str(n)` for a non-negative int: its decimal digits, no leading zero. */
  function NatToString(n: nat): (r: string)
    ensures |r| >= 1
    ensures forall i :: 0 <= i < |r| ==> '0' <= r[i] <= '9'
    ensures |r| > 1 ==> r[0] != '0'
    decreases n
  {
    if n < 10 then [DigitChar(n)] else NatToString(n / 10) + [DigitChar(n % 10)]
  }

  /** The value the digits of a decimal string denote. */
  function DecimalValue(s: string): int
  {
    if s == [] then 0 else DecimalValue(s[..|s| - 1]) * 10 + (s[|s| - 1] as int - '0' as int)
  }

  /** Reading back what `str(n)` wrote gives `n`. */
  lemma {:induction false} NatToStringRoundTrip(n: nat)
    ensures DecimalValue(NatToString(n)) == n
    decreases n
  {
    var r := NatToString(n);
    if n >= 10 {
      NatToStringRoundTrip(n / 10);
      assert r[..|r| - 1] == NatToString(n / 10);
    }
  }
}
