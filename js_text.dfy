/** The pieces of JavaScript string behaviour the components rely on: `trim`, the `\s`/`\S`
    character classes, `startsWith`, `replace` with a string pattern (first occurrence only),
    the email regular expression `\S+@\S+\.\S+` and the `[A-Za-z]`, `[0-9]`, `[^A-Za-z0-9]`
    tests of the password indicators. Strings are sequences of code points. */
module JsText {
  import opened Common

  /** The WhiteSpace and LineTerminator code points of ECMAScript: what `trim` strips and
      what `\s` matches. */
  predicate IsSpace(c: char) {
    var n := c as int;
    n == 0x09 || n == 0x0A || n == 0x0B || n == 0x0C || n == 0x0D || n == 0x20
    || n == 0xA0 || n == 0x1680 || (0x2000 <= n <= 0x200A) || n == 0x2028 || n == 0x2029
    || n == 0x202F || n == 0x205F || n == 0x3000 || n == 0xFEFF
  }

  predicate AllSpace(s: string) {
    forall i :: 0 <= i < |s| ==> IsSpace(s[i])
  }

  /** `s` with its leading white space removed. */
  function TrimStart(s: string): (r: string)
    ensures |r| <= |s| && r == s[|s| - |r|..]
    ensures r == [] || !IsSpace(r[0])
    ensures AllSpace(s[..|s| - |r|])
  {
    if s != [] && IsSpace(s[0]) then
      var t := TrimStart(s[1..]);
      assert s[1..][..|s| - 1 - |t|] == s[1..|s| - |t|];
      t
    else s
  }

  /** `s` with its trailing white space removed. */
  function TrimEnd(s: string): (r: string)
    ensures |r| <= |s| && r == s[..|r|]
    ensures r == [] || !IsSpace(r[|r| - 1])
    ensures AllSpace(s[|r|..])
  {
    if s != [] && IsSpace(s[|s| - 1]) then
      var t := TrimEnd(s[..|s| - 1]);
      assert s[|t|..] == s[..|s| - 1][|t|..] + [s[|s| - 1]];
      t
    else s
  }

  /** `String.prototype.trim`. */
  function Trim(s: string): (r: string)
    ensures |r| <= |s|
    ensures r == [] || (!IsSpace(r[0]) && !IsSpace(r[|r| - 1]))
  {
    TrimEnd(TrimStart(s))
  }

  /** `!s.trim()`: the string is empty once trimmed, which happens exactly when every
      character is white space (`BlankIffAllSpace`). */
  predicate Blank(s: string) {
    AllSpace(s)
  }

  /** Trimming keeps a contiguous middle part of the string, drops only white space around
      it, and the part it keeps starts and ends with a character that is not white space. */
  lemma {:induction false} TrimIsMiddle(s: string)
    ensures exists i, j :: 0 <= i <= j <= |s| && Trim(s) == s[i..j]
                           && AllSpace(s[..i]) && AllSpace(s[j..])
    ensures Trim(s) == [] || (!IsSpace(Trim(s)[0]) && !IsSpace(Trim(s)[|Trim(s)| - 1]))
  {
    var u := TrimStart(s);
    var i := |s| - |u|;
    assert u == s[i..];
    var r := TrimEnd(u);
    assert Trim(s) == r;
    var j := i + |r|;
    assert r == s[i..j] by {
      assert r == u[..|r|];
    }
    assert s[j..] == u[|r|..];
    assert AllSpace(s[..i]) && AllSpace(s[j..]);
    if r != [] {
      assert r[0] == u[0];
    }
  }

  /** A string is blank exactly when every one of its characters is white space: the
      guards of the comment box, the project name and the member email. */
  lemma {:induction false} BlankIffAllSpace(s: string)
    ensures Trim(s) == "" <==> Blank(s)
  {
    var u := TrimStart(s);
    if !AllSpace(s) {
      var k :| 0 <= k < |s| && !IsSpace(s[k]);
      assert k >= |s| - |u|;
      assert u[k - (|s| - |u|)] == s[k];
    }
  }

  /** Trimming a trimmed string changes nothing. */
  lemma TrimIdempotent(s: string)
    ensures Trim(Trim(s)) == Trim(s)
  {
    var r := Trim(s);
    TrimIsMiddle(s);
    if r != [] {
      assert TrimStart(r) == r;
      assert TrimEnd(r) == r;
    }
  }

  predicate StartsWith(s: string, prefix: string) {
    |prefix| <= |s| && s[..|prefix|] == prefix
  }

  predicate OccursAt(s: string, pat: string, k: nat) {
    k + |pat| <= |s| && s[k..k + |pat|] == pat
  }

  /** The first position at or after `from` where `pat` occurs in `s`. */
  function IndexOfFrom(s: string, pat: string, from: nat): (r: Option<nat>)
    decreases |s| - from
    ensures r.Some? ==> from <= r.value && OccursAt(s, pat, r.value)
                        && forall k :: from <= k < r.value ==> !OccursAt(s, pat, k)
    ensures r.None? ==> forall k :: from <= k ==> !OccursAt(s, pat, k)
  {
    if from + |pat| > |s| then None
    else if s[from..from + |pat|] == pat then Some(from)
    else IndexOfFrom(s, pat, from + 1)
  }

  /** `s.replace(pat, repl)` with a string pattern: only the first occurrence is replaced. */
  function ReplaceFirst(s: string, pat: string, repl: string): (r: string)
    ensures IndexOfFrom(s, pat, 0).None? ==> r == s
    ensures IndexOfFrom(s, pat, 0).Some? ==>
              var i := IndexOfFrom(s, pat, 0).value;
              r == s[..i] + repl + s[i + |pat|..]
  {
    match IndexOfFrom(s, pat, 0)
    case None => s
    case Some(i) => s[..i] + repl + s[i + |pat|..]
  }

  /** `/\S+@\S+\.\S+/.test(s)`: somewhere in `s` a non-space character is followed by '@',
      then by a non-empty run of non-space characters, then by '.', then by a non-space
      character. The search is unanchored, so text around the match is allowed. */
  predicate EmailShaped(s: string)
    ensures EmailShaped(s) ==> !AllSpace(s)
  {
    exists a, d :: 0 < a < |s| && a + 1 < d < |s| - 1 && EmailMatchAt(s, a, d)
  }

  /** The expression matches with its '@' at `a` and its '.' at `d`. */
  predicate EmailMatchAt(s: string, a: int, d: int) {
    0 < a && a + 1 < d && d + 1 < |s|
    && s[a] == '@' && s[d] == '.' && !IsSpace(s[a - 1]) && !IsSpace(s[d + 1])
    && forall k :: a < k < d ==> !IsSpace(s[k])
  }

  /** Any string the email check accepts has at least five characters, an '@' and a later
      '.', so in particular it is not empty. */
  lemma EmailShapedHasAtAndDot(s: string)
    requires EmailShaped(s)
    ensures |s| >= 5
    ensures exists a, d :: 0 < a < d < |s| - 1 && s[a] == '@' && s[d] == '.'
  {
  }

  /** The email check is unanchored: text before or after an accepted string keeps it
      accepted. */
  lemma EmailShapedUnanchored(s: string, t: string)
    requires EmailShaped(s)
    ensures EmailShaped(t + s) && EmailShaped(s + t)
  {
    var a, d :| 0 < a < |s| && a + 1 < d < |s| - 1 && EmailMatchAt(s, a, d);
    var u := t + s;
    assert forall k :: 0 <= k < |s| ==> u[|t| + k] == s[k];
    assert EmailMatchAt(u, |t| + a, |t| + d) by {
      forall k | |t| + a < k < |t| + d
        ensures !IsSpace(u[k])
      {
        assert u[k] == s[k - |t|];
      }
    }
    var v := s + t;
    assert forall k :: 0 <= k < |s| ==> v[k] == s[k];
    assert EmailMatchAt(v, a, d);
  }

  predicate IsAsciiLetter(c: char) {
    'A' <= c <= 'Z' || 'a' <= c <= 'z'
  }

  predicate IsAsciiDigit(c: char) {
    '0' <= c <= '9'
  }

  /** `/[A-Za-z]/.test(s)` */
  predicate HasLetter(s: string) {
    exists i :: 0 <= i < |s| && IsAsciiLetter(s[i])
  }

  /** `/[0-9]/.test(s)` */
  predicate HasDigit(s: string) {
    exists i :: 0 <= i < |s| && IsAsciiDigit(s[i])
  }

  /** `/[^A-Za-z0-9]/.test(s)` */
  predicate HasSpecial(s: string) {
    exists i :: 0 <= i < |s| && !IsAsciiLetter(s[i]) && !IsAsciiDigit(s[i])
  }
}
