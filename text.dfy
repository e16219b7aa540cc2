/**
 * `normalizeText` and the `String.prototype.trim` it relies on.
 * Trimming removes, from both ends, the characters ECMAScript calls
 * WhiteSpace and LineTerminator.
 */
module Text {
  import opened Options
  import opened JsonValue

  /** The code points `trim` removes: TAB, LF, VT, FF, CR, SPACE, NBSP, the Zs separators, LS, PS and the BOM. */
  predicate IsWhitespace(c: char)
  {
    var n := c as int;
    n == 0x09 || n == 0x0A || n == 0x0B || n == 0x0C || n == 0x0D || n == 0x20 || n == 0xA0
    || n == 0x1680 || (0x2000 <= n <= 0x200A) || n == 0x2028 || n == 0x2029 || n == 0x202F
    || n == 0x205F || n == 0x3000 || n == 0xFEFF
  }

  predicate AllWhitespace(s: string)
  {
    forall i :: 0 <= i < |s| ==> IsWhitespace(s[i])
  }

  /** Neither end of `s` is whitespace. */
  predicate IsTrimmed(s: string)
  {
    |s| == 0 || (!IsWhitespace(s[0]) && !IsWhitespace(s[|s| - 1]))
  }

  /** `Boolean(s)` on a string; the keep-predicate of `.filter(Boolean)`. */
  predicate IsNonEmpty(s: string)
  {
    s != ""
  }

  /** `r` is `s` with a run of whitespace removed from its front and one from its back. */
  ghost predicate IsCore(s: string, r: string)
  {
    exists i, j :: 0 <= i <= j <= |s| && r == s[i..j] && AllWhitespace(s[..i]) && AllWhitespace(s[j..])
  }

  /** `s.trimStart()`: drops the leading whitespace and nothing else. */
  function TrimStart(s: string): (r: string)
    ensures |r| <= |s| && r == s[|s| - |r|..]
    ensures AllWhitespace(s[..|s| - |r|])
    ensures r == [] || !IsWhitespace(r[0])
  {
    if |s| > 0 && IsWhitespace(s[0]) then
      var r := TrimStart(s[1..]);
      assert s[..|s| - |r|] == [s[0]] + s[1..][..|s[1..]| - |r|];
      r
    else s
  }

  /** `s.trimEnd()`: drops the trailing whitespace and nothing else. */
  function TrimEnd(s: string): (r: string)
    ensures |r| <= |s| && r == s[..|r|]
    ensures AllWhitespace(s[|r|..])
    ensures r == [] || !IsWhitespace(r[|r| - 1])
  {
    if |s| > 0 && IsWhitespace(s[|s| - 1]) then
      var r := TrimEnd(s[..|s| - 1]);
      assert s[|r|..] == s[..|s| - 1][|r|..] + [s[|s| - 1]];
      r
    else s
  }

  /** `s.trim()`: the trimmed core of `s`. */
  function Trim(s: string): (r: string)
    ensures IsTrimmed(r)
    ensures IsCore(s, r)
  {
    var a := TrimStart(s);
    var r := TrimEnd(a);
    var i := |s| - |a|;
    assert s[i..i + |r|] == r;
    assert s[i + |r|..] == a[|r|..];
    assert r != [] ==> r[0] == a[0];
    r
  }

  lemma {:induction false} TrimStartPastWhitespace(a: string, t: string)
    requires AllWhitespace(a)
    requires t == [] || !IsWhitespace(t[0])
    ensures TrimStart(a + t) == t
  {
    if a == [] {
      assert a + t == t;
    } else {
      assert (a + t)[1..] == a[1..] + t;
      TrimStartPastWhitespace(a[1..], t);
    }
  }

  lemma {:induction false} TrimEndPastWhitespace(t: string, b: string)
    requires AllWhitespace(b)
    requires t == [] || !IsWhitespace(t[|t| - 1])
    ensures TrimEnd(t + b) == t
  {
    if b == [] {
      assert t + b == t;
    } else {
      assert (t + b)[..|t + b| - 1] == t + b[..|b| - 1];
      TrimEndPastWhitespace(t, b[..|b| - 1]);
    }
  }

  /** Whatever whitespace surrounds a trimmed string, trimming gives that string back. */
  lemma TrimOfCore(a: string, m: string, b: string)
    requires AllWhitespace(a) && AllWhitespace(b) && IsTrimmed(m)
    ensures Trim(a + m + b) == m
  {
    if m == [] {
      assert a + m + b == (a + b) + [];
      TrimStartPastWhitespace(a + b, []);
    } else {
      assert a + m + b == a + (m + b);
      TrimStartPastWhitespace(a, m + b);
      TrimEndPastWhitespace(m, b);
    }
  }

  /** `Trim(s)` is the one and only trimmed core of `s`. */
  lemma TrimIsUniqueCore(s: string, m: string)
    requires IsCore(s, m) && IsTrimmed(m)
    ensures Trim(s) == m
  {
    var i, j :| 0 <= i <= j <= |s| && m == s[i..j] && AllWhitespace(s[..i]) && AllWhitespace(s[j..]);
    var front, back := s[..i], s[j..];
    assert s == front + m + back;
    TrimOfCore(front, m, back);
  }

  /** Trimming twice is trimming once. */
  lemma TrimIdempotent(s: string)
    ensures Trim(Trim(s)) == Trim(s)
  {
    var t := Trim(s);
    assert t == [] + t + [];
    TrimOfCore([], t, []);
  }

  /**
   * `normalizeText(value)`: the trimmed string when `value` is a string,
   * `""` for every other value, `undefined` included.
   */
  function NormalizeText(v: Option<Json>): (r: string)
    ensures IsTrimmed(r)
    ensures IsString(v) ==> IsCore(v.value.str, r)
    ensures !IsString(v) ==> r == ""
  {
    match v
    case Some(JStr(s)) => Trim(s)
    case _ => ""
  }

  /** A string that is already trimmed passes through `normalizeText` unchanged. */
  lemma NormalizeTrimmed(s: string)
    requires IsTrimmed(s)
    ensures NormalizeText(Some(JStr(s))) == s
  {
    assert s == [] + s + [];
    TrimOfCore([], s, []);
  }
}
