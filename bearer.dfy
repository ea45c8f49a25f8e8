/** `getBearerToken`: the credential of an `Authorization` header of the form
    `Bearer <token>` (section 2.1 of RFC 6750), with the scheme name matched
    case-insensitively as section 2.1 of RFC 7235 allows. The routes implement
    it with the regular expression `^Bearer\s+(.+)$` under the `i` flag; this
    module gives that expression's meaning (`MatchesAt`) and the function the
    routes compute, and proves they agree, including the greedy choice of the
    capture. */
module Bearer {
  import opened Common

  /** JavaScript's `\s` class. */
  predicate IsSpace(c: char)
  {
    c == '\t' || c == '\n' || c == '\U{000B}' || c == '\U{000C}' || c == '\r' || c == ' '
    || c == '\U{00A0}' || c == '\U{1680}' || ('\U{2000}' <= c <= '\U{200A}')
    || c == '\U{2028}' || c == '\U{2029}' || c == '\U{202F}' || c == '\U{205F}'
    || c == '\U{3000}' || c == '\U{FEFF}'
  }

  /** The characters `.` does not match (ECMAScript line terminators). */
  predicate IsLineTerminator(c: char)
  {
    c == '\n' || c == '\r' || c == '\U{2028}' || c == '\U{2029}'
  }

  predicate AllSpace(s: string)
  {
    forall i :: 0 <= i < |s| ==> IsSpace(s[i])
  }

  predicate NoLineTerminator(s: string)
  {
    forall i :: 0 <= i < |s| ==> !IsLineTerminator(s[i])
  }

  function LowerAscii(c: char): char
  {
    if 'A' <= c <= 'Z' then (c as int + 32) as char else c
  }

  /** `s` spells `Bearer` in any mix of letter case. */
  predicate IsBearerScheme(s: string)
  {
    |s| == 6 && forall i :: 0 <= i < 6 ==> LowerAscii(s[i]) == "bearer"[i]
  }

  /** The regular expression matches `h` with the capture group starting at
      index `j`: six scheme characters, then at least one space character up to
      `j`, then a non-empty tail free of line terminators up to the end. */
  predicate MatchesAt(h: string, j: int)
  {
    7 <= j < |h| && IsBearerScheme(h[..6]) && AllSpace(h[6..j]) && NoLineTerminator(h[j..])
  }

  /** `req.headers.get("authorization") || ""`. */
  function HeaderText(authorization: Option<string>): string
  {
    if authorization.Some? then authorization.value else ""
  }

  /** Length of the longest all-space prefix. */
  function LeadingSpaces(s: string): (n: nat)
    ensures n <= |s|
    ensures AllSpace(s[..n])
    ensures n < |s| ==> !IsSpace(s[n])
  {
    if s == [] || !IsSpace(s[0]) then 0
    else
      var m := LeadingSpaces(s[1..]);
      assert s[..m + 1] == [s[0]] + s[1..][..m];
      m + 1
  }

  /** `getBearerToken(req)`: the greedy `\s+` takes every leading space
      character unless nothing would remain for `(.+)`, in which case it gives
      the last one back; `m?.[1] || null` then yields the capture, which is
      never empty. */
  function GetBearerToken(authorization: Option<string>): (t: Option<string>)
    ensures t.Some? ==> var h := HeaderText(authorization);
      && 0 < |t.value| <= |h| - 7
      && t.value == h[|h| - |t.value|..]
      && NoLineTerminator(t.value)
  {
    var h := HeaderText(authorization);
    if |h| < 8 || !IsBearerScheme(h[..6]) then None
    else
      var rest := h[6..];
      var k := LeadingSpaces(rest);
      var j := if k < |rest| then k else k - 1;
      if j == 0 || !NoLineTerminator(rest[j..]) then None else Some(rest[j..])
  }

  /** A header of the scheme, one space and one no-break space: `\s+` must
      leave a character for `(.+)`, so it gives the no-break space back and
      the token is that single space character. */
  lemma SpaceOnlyToken()
    ensures GetBearerToken(Some("Bearer \U{00A0}")) == Some("\U{00A0}")
  {
    var rest := "Bearer \U{00A0}"[6..];
    assert rest == [' ', '\U{00A0}'];
    assert LeadingSpaces(rest[1..]) == 1;
  }

  /** The function finds a token exactly when the expression matches, and the
      token is the capture of the match with the longest run of spaces. */
  lemma GetBearerTokenMatchesRegex(authorization: Option<string>)
    ensures var h := HeaderText(authorization);
      && (GetBearerToken(authorization).Some? <==> exists j :: MatchesAt(h, j))
      && (GetBearerToken(authorization).Some? ==>
            exists j :: MatchesAt(h, j) && GetBearerToken(authorization).value == h[j..]
                        && forall j' :: MatchesAt(h, j') ==> j' <= j)
  {
    var h := HeaderText(authorization);
    var r := GetBearerToken(authorization);
    if r.Some? {
      var rest := h[6..];
      var k := LeadingSpaces(rest);
      var j := if k < |rest| then k else k - 1;
      assert rest[..j] == h[6..j + 6];
      assert rest[j..] == h[j + 6..];
      assert MatchesAt(h, j + 6);
      forall j' | MatchesAt(h, j') ensures j' <= j + 6 {
        NotBeyondLeadingSpaces(h, j');
      }
    } else {
      forall j0 | MatchesAt(h, j0) ensures false {
        NotBeyondLeadingSpaces(h, j0);
      }
    }
  }

  /** The space run before a capture lies inside the leading spaces and leaves
      at least one character. */
  lemma NotBeyondLeadingSpaces(h: string, j: int)
    requires MatchesAt(h, j)
    ensures j - 6 <= LeadingSpaces(h[6..])
    ensures j - 6 < |h[6..]|
  {
  }
}
