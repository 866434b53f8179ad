/** The Python string operations the agent relies on: `lower`, `strip`,
    `startswith` and the `in` test on strings. */
module PyText {

  /** Python's `str.isspace()` for one character: the ASCII whitespace and
      separator controls plus the Unicode space separators. */
  predicate IsSpace(c: char)
  {
    || c == ' '
    || ('\t' <= c <= '\r')
    || ('\U{1c}' <= c <= '\U{1f}')
    || c == '\U{85}' || c == '\U{a0}' || c == '\U{1680}'
    || ('\U{2000}' <= c <= '\U{200a}')
    || c == '\U{2028}' || c == '\U{2029}' || c == '\U{202f}' || c == '\U{205f}' || c == '\U{3000}'
  }

  predicate AllSpace(s: string)
  {
    forall k :: 0 <= k < |s| ==> IsSpace(s[k])
  }

  /** Neither end of `t` is whitespace: what `strip` leaves behind. */
  predicate Trimmed(t: string)
  {
    t == [] || (!IsSpace(t[0]) && !IsSpace(t[|t| - 1]))
  }

  predicate IsUpperAscii(c: char)
  {
    'A' <= c <= 'Z'
  }

  function LowerChar(c: char): (d: char)
    ensures !IsUpperAscii(d)
    ensures IsUpperAscii(c) ==> d as int == c as int + 32
    ensures !IsUpperAscii(c) ==> d == c
  {
    if IsUpperAscii(c) then (c as int - 'A' as int + 'a' as int) as char else c
  }

  /** `str.lower()`: every ASCII capital becomes its small letter, every other
      character is kept in place. */
  function Lower(s: string): (r: string)
    ensures |r| == |s|
    ensures forall i :: 0 <= i < |s| ==> r[i] == LowerChar(s[i])
  {
    if s == [] then [] else [LowerChar(s[0])] + Lower(s[1..])
  }

  /** `str.lstrip()`: drop the whitespace at the front. */
  function TrimStart(s: string): (r: string)
    ensures |r| <= |s| && r == s[|s| - |r|..]
    ensures forall k :: 0 <= k < |s| - |r| ==> IsSpace(s[k])
    ensures r == [] || !IsSpace(r[0])
  {
    if s != [] && IsSpace(s[0]) then
      var r := TrimStart(s[1..]);
      assert s[1..][|s| - 1 - |r|..] == s[|s| - |r|..];
      r
    else s
  }

  /** `str.rstrip()`: drop the whitespace at the back. */
  function TrimEnd(s: string): (r: string)
    ensures |r| <= |s| && r == s[..|r|]
    ensures forall k :: |r| <= k < |s| ==> IsSpace(s[k])
    ensures r == [] || !IsSpace(r[|r| - 1])
  {
    if s != [] && IsSpace(s[|s| - 1]) then
      var r := TrimEnd(s[..|s| - 1]);
      assert s[..|s| - 1][..|r|] == s[..|r|];
      r
    else s
  }

  /** `str.strip()`: drop the whitespace at both ends. */
  function Strip(s: string): (r: string)
    ensures Trimmed(r)
    ensures |r| <= |s|
    ensures r == [] <==> AllSpace(s)
  {
    var t := TrimStart(s);
    var r := TrimEnd(t);
    assert r != [] ==> r[0] == t[0];
    assert t != [] ==> t[0] == s[|s| - |t|];
    // a non-empty `t` starts with a non-space, so `rstrip` cannot empty it
    assert r == [] ==> t == [];
    r
  }

  predicate StartsWith(s: string, prefix: string)
  {
    |prefix| <= |s| && s[..|prefix|] == prefix
  }

  /** Python's `x in s` for two strings. */
  predicate IsSubstring(x: string, s: string)
  {
    exists i | 0 <= i <= |s| - |x| :: OccursAt(x, s, i)
  }

  predicate OccursAt(x: string, s: string, i: int)
  {
    0 <= i <= |s| - |x| && s[i..i + |x|] == x
  }

  lemma SubstringOfConcat(a: string, x: string, b: string)
    ensures IsSubstring(x, a + x + b)
  {
    var s := a + x + b;
    assert OccursAt(x, s, |a|);
  }

  lemma SubstringTransitive(x: string, y: string, s: string)
    requires IsSubstring(x, y) && IsSubstring(y, s)
    ensures IsSubstring(x, s)
  {
    var i :| 0 <= i <= |y| - |x| && OccursAt(x, y, i);
    var j :| 0 <= j <= |s| - |y| && OccursAt(y, s, j);
    assert y[i..i + |x|] == x && s[j..j + |y|] == y;
    forall k | 0 <= k < |x|
      ensures s[j + i..j + i + |x|][k] == x[k]
    {
      assert x[k] == y[i + k] == s[j + i + k];
    }
    assert OccursAt(x, s, j + i);
  }

  /** Lowering twice is lowering once, so the provider name read from the
      environment may be lowered again at dispatch without effect. */
  lemma LowerIdempotent(s: string)
    ensures Lower(Lower(s)) == Lower(s)
  {
  }

  /** `strip` only removes characters, so a name without capitals keeps
      none after stripping. */
  lemma StripKeepsLowerCase(s: string)
    requires forall i :: 0 <= i < |s| ==> !IsUpperAscii(s[i])
    ensures forall i :: 0 <= i < |Strip(s)| ==> !IsUpperAscii(Strip(s)[i])
  {
    var t := TrimStart(s);
    var r := TrimEnd(t);
    assert Strip(s) == r;
    forall i | 0 <= i < |r|
      ensures !IsUpperAscii(r[i])
    {
      assert r[i] == t[i] == s[|s| - |t| + i];
    }
  }

  /** Lowering never turns whitespace into text or text into whitespace. */
  lemma LowerKeepsSpace(s: string)
    ensures AllSpace(Lower(s)) <==> AllSpace(s)
  {
    assert forall i :: 0 <= i < |s| ==> (IsSpace(Lower(s)[i]) <==> IsSpace(s[i]));
  }

  lemma {:induction false} TrimStartPast(a: string, u: string)
    requires AllSpace(a)
    requires u == [] || !IsSpace(u[0])
    ensures TrimStart(a + u) == u
  {
    if a != [] {
      assert (a + u)[1..] == a[1..] + u;
      TrimStartPast(a[1..], u);
    }
  }

  lemma {:induction false} TrimEndPast(u: string, b: string)
    requires AllSpace(b)
    requires u == [] || !IsSpace(u[|u| - 1])
    ensures TrimEnd(u + b) == u
  {
    if b != [] {
      assert (u + b)[..|u + b| - 1] == u + b[..|b| - 1];
      TrimEndPast(u, b[..|b| - 1]);
    }
  }

  /** `strip` has exactly one possible answer: whatever trimmed middle sits
      between two runs of whitespace is what `strip` returns. */
  lemma {:induction false} StripUnique(a: string, t: string, b: string)
    requires AllSpace(a) && AllSpace(b) && Trimmed(t)
    ensures Strip(a + t + b) == t
  {
    if t == [] {
      assert AllSpace(a + t + b);
    } else {
      assert a + t + b == a + (t + b);
      TrimStartPast(a, t + b);
      TrimEndPast(t, b);
    }
  }
}
