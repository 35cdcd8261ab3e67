/** Whitespace trimming as Rust's `str::trim` does it: both ends lose every
    character with the Unicode `White_Space` property, the interior is kept. */
module Text {

  /** Unicode `White_Space`, the class `char::is_whitespace` tests. */
  predicate IsWhitespace(c: char) {
    || ('\U{9}' <= c <= '\U{D}')
    || c == ' '
    || c == '\U{85}'
    || c == '\U{A0}'
    || c == '\U{1680}'
    || ('\U{2000}' <= c <= '\U{200A}')
    || c == '\U{2028}'
    || c == '\U{2029}'
    || c == '\U{202F}'
    || c == '\U{205F}'
    || c == '\U{3000}'
  }

  /** Every character of `s` is whitespace. */
  predicate AllWhitespace(s: string) {
    forall i :: 0 <= i < |s| ==> IsWhitespace(s[i])
  }

  /** `s` has no whitespace at either end (the empty string qualifies). */
  predicate Trimmed(s: string) {
    s == [] || (!IsWhitespace(s[0]) && !IsWhitespace(s[|s| - 1]))
  }

  /** Leading whitespace removed: a suffix of `s` whose removed part is all
      whitespace and which does not itself start with whitespace. */
  function TrimStart(s: string): (r: string)
    ensures |r| <= |s| && r == s[|s| - |r|..]
    ensures AllWhitespace(s[..|s| - |r|])
    ensures r == [] || !IsWhitespace(r[0])
  {
    if |s| > 0 && IsWhitespace(s[0]) then
      var r := TrimStart(s[1..]);
      assert s[..|s| - |r|] == [s[0]] + s[1..][..|s| - 1 - |r|];
      assert s[1..][|s| - 1 - |r|..] == s[|s| - |r|..];
      r
    else
      s
  }

  /** Trailing whitespace removed: a prefix of `s` whose removed part is all
      whitespace and which does not itself end with whitespace. */
  function TrimEnd(s: string): (r: string)
    ensures |r| <= |s| && r == s[..|r|]
    ensures AllWhitespace(s[|r|..])
    ensures r == [] || !IsWhitespace(r[|r| - 1])
  {
    if |s| > 0 && IsWhitespace(s[|s| - 1]) then
      var r := TrimEnd(s[..|s| - 1]);
      assert s[|r|..] == s[..|s| - 1][|r|..] + [s[|s| - 1]];
      assert s[..|s| - 1][..|r|] == s[..|r|];
      r
    else
      s
  }

  /** Rust's `str::trim`. */
  function Trim(s: string): (r: string)
    ensures Trimmed(r)
    ensures |r| <= |s|
  {
    TrimEnd(TrimStart(s))
  }

  /** Trimming removes exactly the whitespace padding: whatever trimmed core
      `t` is wrapped in whitespace `a` and `b`, `Trim` recovers `t`. */
  lemma {:induction false} TrimRecoversCore(a: string, t: string, b: string)
    requires AllWhitespace(a) && AllWhitespace(b) && Trimmed(t)
    ensures Trim(a + t + b) == t
  {
    if t == [] {
      assert a + t + b == (a + b) + [];
      assert AllWhitespace(a + b) by {
        forall i | 0 <= i < |a + b|
          ensures IsWhitespace((a + b)[i])
        {
          if i < |a| { assert (a + b)[i] == a[i]; } else { assert (a + b)[i] == b[i - |a|]; }
        }
      }
      TrimStartDropsPadding(a + b, []);
    } else {
      assert a + t + b == a + (t + b);
      TrimStartDropsPadding(a, t + b);
      TrimEndDropsPadding(t, b);
    }
  }

  lemma {:induction false} TrimStartDropsPadding(a: string, u: string)
    requires AllWhitespace(a)
    requires u == [] || !IsWhitespace(u[0])
    ensures TrimStart(a + u) == u
    decreases |a|
  {
    if a != [] {
      assert (a + u)[1..] == a[1..] + u;
      TrimStartDropsPadding(a[1..], u);
    }
  }

  lemma {:induction false} TrimEndDropsPadding(u: string, b: string)
    requires AllWhitespace(b)
    requires u == [] || !IsWhitespace(u[|u| - 1])
    ensures TrimEnd(u + b) == u
    decreases |b|
  {
    if b != [] {
      assert (u + b)[..|u + b| - 1] == u + b[..|b| - 1];
      TrimEndDropsPadding(u, b[..|b| - 1]);
    } else {
      assert u + b == u;
    }
  }

  /** Trimming twice is trimming once. */
  lemma TrimIdempotent(s: string)
    ensures Trim(Trim(s)) == Trim(s)
  {
    var t := Trim(s);
    TrimRecoversCore([], t, []);
    assert [] + t + [] == t;
  }
}
