/**
 * The token extraction every API route repeats:
 * `cookie?.split('token=')[1]?.split(';')[0]`. It is a substring split of the
 * raw `Cookie` header, not a cookie-string parser in the sense of section
 * 4.2.1 of RFC 6265: any cookie whose name ends in `token` matches too.
 */
module Cookie {
  import opened Wrappers

  /** `pat` occurs in `s` starting at index `i`. */
  predicate OccursAt(s: string, pat: string, i: nat) {
    i + |pat| <= |s| && s[i..i + |pat|] == pat
  }

  /** No occurrence of `pat` in `s` starts before index `k`. */
  ghost predicate NoneBefore(s: string, pat: string, k: nat) {
    forall j: nat :: j < k ==> !OccursAt(s, pat, j)
  }

  ghost predicate Contains(s: string, pat: string) {
    exists j: nat :: OccursAt(s, pat, j)
  }

  /** The first occurrence of `pat` at or after `k`, as `indexOf` finds it. */
  function FindFrom(s: string, pat: string, k: nat): (r: Option<nat>)
    requires |pat| > 0 && NoneBefore(s, pat, k)
    ensures r.Some? ==> OccursAt(s, pat, r.value) && NoneBefore(s, pat, r.value)
    ensures r.None? ==> !Contains(s, pat)
    decreases |s| - k
  {
    if k + |pat| > |s| then
      assert forall j: nat :: OccursAt(s, pat, j) ==> j < k;
      None
    else if s[k..k + |pat|] == pat then Some(k)
    else FindFrom(s, pat, k + 1)
  }

  function Find(s: string, pat: string): (r: Option<nat>)
    requires |pat| > 0
    ensures r.Some? ==> OccursAt(s, pat, r.value) && NoneBefore(s, pat, r.value)
    ensures r.None? ==> !Contains(s, pat)
  {
    FindFrom(s, pat, 0)
  }

  /**
   * `f` is the first field of `s`: a prefix that runs to the first `sep`, or
   * all of `s` when `sep` does not occur in it.
   */
  ghost predicate IsFirstField(s: string, sep: string, f: string) {
    && f <= s
    && ((f == s && !Contains(s, sep)) || (OccursAt(s, sep, |f|) && NoneBefore(s, sep, |f|)))
  }

  /** `s.split(sep)[0]`: the text before the first `sep`, or all of `s`. */
  function FirstField(s: string, sep: string): (r: string)
    requires |sep| > 0
    ensures IsFirstField(s, sep, r)
    ensures !Contains(r, sep)
  {
    match Find(s, sep)
    case None => s
    case Some(i) =>
      PrefixKeepsAbsence(s, sep, i);
      s[..i]
  }

  /**
   * `s.split(sep)[1]`: the text between the first and the second `sep` (or
   * the end), and `undefined` when `sep` does not occur.
   */
  function SecondField(s: string, sep: string): (r: Option<string>)
    requires |sep| > 0
    ensures r.None? <==> !Contains(s, sep)
    ensures r.Some? ==> !Contains(r.value, sep)
    ensures r.Some? ==> Find(s, sep).Some?
                        && IsFirstField(s[Find(s, sep).value + |sep|..], sep, r.value)
  {
    match Find(s, sep)
    case None => None
    case Some(i) => Some(FirstField(s[i + |sep|..], sep))
  }

  const TokenKey := "token="

  /**
   * The session token the routes read from the `Cookie` header: `None` for
   * `undefined` (no header, or no `token=` in it).
   */
  function TokenFromCookie(header: Option<string>): (r: Option<string>)
    ensures r.None? <==> header.None? || !Contains(header.value, TokenKey)
    ensures r.Some? ==> !Contains(r.value, ";") && !Contains(r.value, TokenKey)
  {
    match header
    case None => None
    case Some(h) =>
      match SecondField(h, TokenKey)
      case None => None
      case Some(f) =>
        var t := FirstField(f, ";");
        PrefixKeepsAbsence(f, TokenKey, |t|);
        Some(t)
  }

  /** `if (!token)`: both `undefined` and the empty string are refused. */
  predicate HasToken(t: Option<string>) {
    t.Some? && t.value != ""
  }

  /** A prefix of a text free of `pat` is free of `pat`. */
  lemma PrefixKeepsAbsence(s: string, pat: string, k: nat)
    requires |pat| > 0 && k <= |s| && NoneBefore(s, pat, k)
    ensures !Contains(s[..k], pat)
  {
    forall j: nat | OccursAt(s[..k], pat, j)
      ensures false
    {
      assert s[..k][j..j + |pat|] == s[j..j + |pat|];
      assert OccursAt(s, pat, j);
    }
  }

  /** The first occurrence is the one `Find` reports. */
  lemma FindIs(s: string, pat: string, k: nat)
    requires |pat| > 0 && OccursAt(s, pat, k) && NoneBefore(s, pat, k)
    ensures Find(s, pat) == Some(k)
  {
    assert Contains(s, pat) by { assert OccursAt(s, pat, k); }
  }

  /** With no occurrence before `k`, `Find` reports none or one at `k` or later. */
  lemma FindNotBefore(s: string, pat: string, k: nat)
    requires |pat| > 0 && NoneBefore(s, pat, k)
    ensures Find(s, pat).None? || Find(s, pat).value >= k
  {
  }

  /** A text free of the one-character `sep`, followed by nothing or by `sep`, is its own first field. */
  lemma FirstFieldStopsAtSeparator(v: string, g: string, sep: char)
    requires !Contains(v, [sep])
    requires g == [] || g[0] == sep
    ensures FirstField(v + g, [sep]) == v
  {
    var f := v + g;
    assert NoneBefore(f, [sep], |v|) by {
      forall j: nat | j < |v|
        ensures !OccursAt(f, [sep], j)
      {
        assert !OccursAt(v, [sep], j);
        if j + 1 <= |f| {
          assert f[j..j + 1] == v[j..j + 1];
        }
      }
    }
    if g == [] {
      assert f == v;
      assert Find(f, [sep]).None?;
    } else {
      assert f[|v|..|v| + 1] == [sep];
      FindIs(f, [sep], |v|);
      assert f[..|v|] == v;
    }
  }

  /**
   * A header holding `token=v`, with no `token=` before it, and `v` ending at
   * a `;` or at the end of the header, yields exactly `v`: the value a
   * `Set-Cookie: token=v` round-trips to, provided `v` itself holds neither
   * `;` nor `token=`.
   */
  lemma {:induction false} ExtractsPairValue(pre: string, v: string, rest: string)
    requires !Contains(pre, TokenKey)
    requires !Contains(v, TokenKey) && !Contains(v, ";")
    requires rest == [] || rest[0] == ';'
    ensures TokenFromCookie(Some(pre + TokenKey + v + rest)) == Some(v)
  {
    var h := pre + TokenKey + v + rest;
    var n := |TokenKey|;
    // The first `token=` in the header is the one after `pre`.
    assert h[|pre|..|pre| + n] == TokenKey;
    forall j: nat | j < |pre|
      ensures !OccursAt(h, TokenKey, j)
    {
      // An occurrence running into the key would need an `=` inside `token`.
      if j + n <= |pre| {
        assert !OccursAt(pre, TokenKey, j);
        assert h[j..j + n] == pre[j..j + n];
      } else if j + n <= |h| {
        assert h[j..j + n][n - 1] == h[j + n - 1] == TokenKey[j + n - 1 - |pre|];
      }
    }
    FindIs(h, TokenKey, |pre|);
    var after := h[|pre| + n..];
    assert after == v + rest;
    // The field after it runs at least to the end of `v`.
    forall j: nat | j < |v|
      ensures !OccursAt(after, TokenKey, j)
    {
      // An occurrence running past `v` would need the `;` that follows it.
      if j + n <= |v| {
        assert !OccursAt(v, TokenKey, j);
        assert after[j..j + n] == v[j..j + n];
      } else if j + n <= |after| {
        assert after[j..j + n][|v| - j] == after[|v|] == ';';
      }
    }
    FindNotBefore(after, TokenKey, |v|);
    var f := FirstField(after, TokenKey);
    var g: string;
    match Find(after, TokenKey) {
      case None =>
        g := rest;
        assert f == after;
      case Some(i) =>
        g := rest[..i - |v|];
        assert f == after[..i] == v + g;
    }
    assert f == v + g;
    assert SecondField(h, TokenKey) == Some(f);
    FirstFieldStopsAtSeparator(v, g, ';');
  }

  /** Texts shorter than `pat` cannot contain it. */
  lemma ShortTextLacks(s: string, pat: string)
    requires |s| < |pat|
    ensures !Contains(s, pat)
  {
  }

  lemma AbcHasNoSemicolon()
    ensures !Contains("abc", ";")
  {
    forall j: nat
      ensures !OccursAt("abc", ";", j)
    {
      if j < 3 {
        assert "abc"[j..j + 1] == ["abc"[j]];
      }
    }
  }

  /** A cookie named `csrftoken` satisfies the split as well: its value is taken for the session token. */
  lemma CsrfCookieIsTakenForToken()
    ensures TokenFromCookie(Some("csrftoken=abc")) == Some("abc")
  {
    ShortTextLacks("csrf", TokenKey);
    ShortTextLacks("abc", TokenKey);
    AbcHasNoSemicolon();
    ExtractsPairValue("csrf", "abc", "");
    assert "csrf" + TokenKey + "abc" + "" == "csrftoken=abc";
  }

  /** The `csrftoken` value still wins when a real `token` cookie follows it. */
  lemma CsrfCookieShadowsSessionToken()
    ensures TokenFromCookie(Some("csrftoken=abc; token=xyz")) == Some("abc")
  {
    ShortTextLacks("csrf", TokenKey);
    ShortTextLacks("abc", TokenKey);
    AbcHasNoSemicolon();
    ExtractsPairValue("csrf", "abc", "; token=xyz");
    ShadowingHeaderParts();
  }

  lemma ShadowingHeaderParts()
    ensures "csrf" + TokenKey + "abc" + "; token=xyz" == "csrftoken=abc; token=xyz"
  {
  }
}
