/** The three JavaScript string operations the pipeline relies on:
    `String.prototype.includes`, `String.prototype.trim` and `.length`,
    which counts UTF-16 code units rather than characters. */
module Text {

  /** `s.includes(sub)`: sub occurs somewhere in s as a contiguous slice. */
  predicate Contains(s: string, sub: string)
  {
    exists i :: 0 <= i <= |s| - |sub| && OccursAt(s, sub, i)
  }

  /** sub starts at position i of s. */
  predicate OccursAt(s: string, sub: string, i: int)
  {
    0 <= i <= |s| - |sub| && s[i..i + |sub|] == sub
  }

  /** The characters ECMAScript `trim` removes: WhiteSpace (tab, vertical tab,
      form feed, space, no-break space, byte order mark and the Zs category)
      and LineTerminator (line feed, carriage return, line and paragraph
      separator). */
  predicate IsTrimmable(c: char)
  {
    || c == '\t' || c == '\n' || c == '\U{000B}' || c == '\U{000C}' || c == '\r'
    || c == ' ' || c == '\U{00A0}' || c == '\U{1680}'
    || ('\U{2000}' <= c <= '\U{200A}')
    || c == '\U{2028}' || c == '\U{2029}' || c == '\U{202F}' || c == '\U{205F}'
    || c == '\U{3000}' || c == '\U{FEFF}'
  }

  predicate AllTrimmable(s: string)
  {
    forall i :: 0 <= i < |s| ==> IsTrimmable(s[i])
  }

  /** Drops leading trimmable characters. */
  function TrimStart(s: string): (r: string)
    ensures |r| <= |s| && r == s[|s| - |r|..]
    ensures AllTrimmable(s[..|s| - |r|])
    ensures |r| > 0 ==> !IsTrimmable(r[0])
    decreases |s|
  {
    if |s| > 0 && IsTrimmable(s[0]) then
      var r := TrimStart(s[1..]);
      assert s[1..][..|s| - 1 - |r|] == s[1..|s| - |r|];
      r
    else s
  }

  /** Drops trailing trimmable characters. */
  function TrimEnd(s: string): (r: string)
    ensures |r| <= |s| && r == s[..|r|]
    ensures AllTrimmable(s[|r|..])
    ensures |r| > 0 ==> !IsTrimmable(r[|r| - 1])
    decreases |s|
  {
    if |s| > 0 && IsTrimmable(s[|s| - 1]) then
      var r := TrimEnd(s[..|s| - 1]);
      assert s[..|s| - 1][|r|..] == s[|r|..|s| - 1];
      r
    else s
  }

  /** `s.trim()`: the longest slice of s that neither starts nor ends with a
      trimmable character, obtained by cutting only trimmable characters. */
  function Trim(s: string): (r: string)
    ensures exists i, j :: 0 <= i <= j <= |s| && r == s[i..j]
                           && AllTrimmable(s[..i]) && AllTrimmable(s[j..])
    ensures |r| > 0 ==> !IsTrimmable(r[0]) && !IsTrimmable(r[|r| - 1])
  {
    var t := TrimStart(s);
    var r := TrimEnd(t);
    TrimCuts(s, t, r);
    r
  }

  /** Cutting a trimmable prefix and then a trimmable suffix cuts a slice. */
  lemma TrimCuts(s: string, t: string, r: string)
    requires |t| <= |s| && t == s[|s| - |t|..] && AllTrimmable(s[..|s| - |t|])
    requires |r| <= |t| && r == t[..|r|] && AllTrimmable(t[|r|..])
    ensures exists i, j :: 0 <= i <= j <= |s| && r == s[i..j]
                           && AllTrimmable(s[..i]) && AllTrimmable(s[j..])
  {
    var i := |s| - |t|;
    var j := i + |r|;
    assert r == s[i..j];
    assert s[j..] == t[|r|..];
  }

  /** Trimming leaves nothing exactly when every character is trimmable. */
  lemma TrimEmptyIff(s: string)
    ensures Trim(s) == "" <==> AllTrimmable(s)
  {
    var r := Trim(s);
    var i, j :| 0 <= i <= j <= |s| && r == s[i..j] && AllTrimmable(s[..i]) && AllTrimmable(s[j..]);
    if r == "" {
      forall k | 0 <= k < |s| ensures IsTrimmable(s[k]) {
        if k < i { assert s[..i][k] == s[k]; }
        else { assert s[j..][k - j] == s[k]; }
      }
    } else {
      assert r[0] == s[i];
      assert !IsTrimmable(s[i]);
    }
  }

  /** Characters outside the Basic Multilingual Plane: UTF-16 writes each
      as a surrogate pair. */
  predicate IsAstral(c: char)
  {
    c as int >= 0x1_0000
  }

  /** JavaScript `.length`: characters outside the Basic Multilingual Plane
      take two UTF-16 code units, every other character one. */
  function Utf16Length(s: string): (n: nat)
    ensures |s| <= n <= 2 * |s|
    ensures n == |s| <==> forall i :: 0 <= i < |s| ==> !IsAstral(s[i])
    ensures n == 2 * |s| <==> forall i :: 0 <= i < |s| ==> IsAstral(s[i])
  {
    if |s| == 0 then 0
    else
      var rest := Utf16Length(s[1..]);
      assert forall i :: 1 <= i < |s| ==> s[i] == s[1..][i - 1];
      (if IsAstral(s[0]) then 2 else 1) + rest
  }

  /** The length of a concatenation is the sum of the lengths, so with the
      one-character cases above it fixes the length of every string. */
  lemma {:induction false} Utf16LengthAppend(a: string, b: string)
    ensures Utf16Length(a + b) == Utf16Length(a) + Utf16Length(b)
  {
    if |a| > 0 {
      assert (a + b)[1..] == a[1..] + b;
      Utf16LengthAppend(a[1..], b);
    } else {
      assert a + b == b;
    }
  }
}
