/**
 * The string operations the components rely on, with JavaScript's meaning:
 * `String.prototype.trim`, the blank test `!s.trim()`, substring search and
 * `s.replace(/lit/g, '')` for a literal pattern with no regex metacharacters.
 */
module JsStrings {

  /** ECMAScript WhiteSpace and LineTerminator code points, which `trim` removes. */
  predicate IsWhiteSpace(c: char) {
    c == '\t' || c == '\n' || c == '\U{B}' || c == '\U{C}' || c == '\r' || c == ' '
    || c == '\U{A0}' || c == '\U{1680}' || ('\U{2000}' <= c <= '\U{200A}')
    || c == '\U{2028}' || c == '\U{2029}' || c == '\U{202F}' || c == '\U{205F}'
    || c == '\U{3000}' || c == '\U{FEFF}'
  }

  predicate AllWhiteSpace(s: string) {
    forall i :: 0 <= i < |s| ==> IsWhiteSpace(s[i])
  }

  /** Drops the leading white space: the result is the longest suffix that does not start with it. */
  function TrimStart(s: string): (r: string)
    ensures |r| <= |s| && r == s[|s| - |r|..]
    ensures AllWhiteSpace(s[..|s| - |r|])
    ensures r != [] ==> !IsWhiteSpace(r[0])
  {
    if s != [] && IsWhiteSpace(s[0]) then
      var r := TrimStart(s[1..]);
      assert s[..|s| - |r|] == [s[0]] + s[1..][..|s[1..]| - |r|];
      r
    else s
  }

  /** Drops the trailing white space: the result is the longest prefix that does not end with it. */
  function TrimEnd(s: string): (r: string)
    ensures r <= s
    ensures AllWhiteSpace(s[|r|..])
    ensures r != [] ==> !IsWhiteSpace(r[|r| - 1])
  {
    if s != [] && IsWhiteSpace(s[|s| - 1]) then
      var r := TrimEnd(s[..|s| - 1]);
      assert s[|r|..] == s[..|s| - 1][|r|..] + [s[|s| - 1]];
      r
    else s
  }

  /** `s.trim()`: a slice of `s` with white space only outside it and none at either end. */
  function Trim(s: string): (r: string)
    ensures r <= s[|s| - |TrimStart(s)|..]
    ensures AllWhiteSpace(s[..|s| - |TrimStart(s)|]) && AllWhiteSpace(s[|s| - |TrimStart(s)| + |r|..])
    ensures r != [] ==> !IsWhiteSpace(r[0]) && !IsWhiteSpace(r[|r| - 1])
  {
    TrimEnd(TrimStart(s))
  }

  /** `!s.trim()`: the trimmed string is empty, hence falsy. */
  predicate IsBlank(s: string) {
    Trim(s) == []
  }

  /** A string is blank exactly when every character in it is white space. */
  lemma BlankIffAllWhiteSpace(s: string)
    ensures IsBlank(s) <==> AllWhiteSpace(s)
  {
    var t := TrimStart(s);
    assert s == s[..|s| - |t|] + t;
    assert t != [] ==> t[0] == s[|s| - |t|];
    if IsBlank(s) {
      assert AllWhiteSpace(t[|TrimEnd(t)|..]);
      assert AllWhiteSpace(t);
    }
  }

  /** A trimmed string is its own trim. */
  lemma {:induction false} TrimIdempotent(s: string)
    ensures Trim(Trim(s)) == Trim(s)
  {
    var r := Trim(s);
    if r != [] {
      assert TrimStart(r) == r;
      assert TrimEnd(r) == r;
    }
  }

  /** `p` occurs in `s` at offset 0 or later. */
  predicate Contains(s: string, p: string) {
    |p| <= |s| && (s[..|p|] == p || Contains(s[1..], p))
  }

  /** A string that does not contain `p` has no suffix that contains it. */
  lemma {:induction false} NotContainsSuffix(s: string, p: string, k: nat)
    requires k <= |s| && !Contains(s, p)
    ensures !Contains(s[k..], p)
  {
    if k > 0 {
      if |p| <= |s| {
        NotContainsSuffix(s[1..], p, k - 1);
        assert s[1..][k - 1..] == s[k..];
      }
    }
  }

  /** A string that does not contain `p` has no prefix that contains it. */
  lemma {:induction false} NotContainsPrefix(s: string, p: string, k: nat)
    requires k <= |s| && !Contains(s, p)
    ensures !Contains(s[..k], p)
  {
    if |p| <= k {
      assert s[..k][..|p|] == s[..|p|];
      assert s[..k][1..] == s[1..][..k - 1];
      NotContainsPrefix(s[1..], p, k - 1);
    }
  }

  /** `p` does not occur when no position with room for it holds its first character. */
  lemma {:induction false} NoStartNoMatch(s: string, p: string)
    requires p != []
    requires forall i :: 0 <= i && i + |p| <= |s| ==> s[i] != p[0]
    ensures !Contains(s, p)
  {
    if |p| <= |s| {
      assert s[..|p|][0] == s[0];
      assert forall i :: 0 <= i && i + |p| <= |s[1..]| ==> s[1..][i] == s[i + 1];
      NoStartNoMatch(s[1..], p);
    }
  }

  /**
   * `s.replace(/p/g, '')` for a literal, non-empty `p`: scanning left to right,
   * every non-overlapping occurrence of `p` is deleted.
   */
  function RemoveAll(s: string, p: string): (r: string)
    requires p != []
    ensures |r| <= |s|
    decreases |s|
  {
    if |s| < |p| then s
    else if s[..|p|] == p then RemoveAll(s[|p|..], p)
    else [s[0]] + RemoveAll(s[1..], p)
  }

  /** Removing a pattern that does not occur leaves the string unchanged. */
  lemma {:induction false} RemoveAbsent(s: string, p: string)
    requires p != [] && !Contains(s, p)
    ensures RemoveAll(s, p) == s
  {
    if |p| <= |s| {
      RemoveAbsent(s[1..], p);
      assert s == [s[0]] + s[1..];
    }
  }

  const Fence: string := "```"

  /** A string that does not start with a fence keeps its first character in front. */
  lemma FenceRemovalKeepsHead(s: string)
    requires s != [] && (|s| < 3 || s[..3] != Fence)
    ensures RemoveAll(s, Fence) == [s[0]] + RemoveAll(s[1..], Fence)
  {
    if |s| < 3 {
      assert RemoveAll(s[1..], Fence) == s[1..];
      assert s == [s[0]] + s[1..];
    }
  }

  /** Deleting every "```" from text without backticks followed by one fence leaves the text. */
  lemma {:induction false} RemoveClosingFence(t: string)
    requires forall i :: 0 <= i < |t| ==> t[i] != '`'
    ensures RemoveAll(t + Fence, Fence) == t
  {
    if t == [] {
      assert t + Fence == Fence;
      assert Fence[3..] == [];
    } else {
      assert (t + Fence)[0] == t[0];
      assert (t + Fence)[1..] == t[1..] + Fence;
      RemoveClosingFence(t[1..]);
      assert t == [t[0]] + t[1..];
    }
  }

  /**
   * Deleting every "```" leaves no "```": a run of n backticks becomes a run
   * of n % 3 backticks, and runs are separated by characters that stay.
   */
  lemma {:induction false} NoFenceAfterRemoval(s: string)
    ensures !Contains(RemoveAll(s, Fence), Fence)
    decreases |s|
  {
    var r := RemoveAll(s, Fence);
    if |s| < 3 {
    } else if s[..3] == Fence {
      NoFenceAfterRemoval(s[3..]);
    } else {
      var t := RemoveAll(s[1..], Fence);
      NoFenceAfterRemoval(s[1..]);
      assert r == [s[0]] + t;
      assert r[1..] == t;
      if s[0] == '`' {
        // s starts with a backtick but not with three of them
        if s[1] != '`' {
          FenceRemovalKeepsHead(s[1..]);
          assert t[0] != '`';
        } else {
          FenceRemovalKeepsHead(s[1..]);
          FenceRemovalKeepsHead(s[2..]);
          assert t[1] != '`';
        }
      }
    }
  }
}
