/**
 * The bearer-token clean-up both directors apply to the Authorization header:
 * `strings.ReplaceAll(req.Header.Get("Authorization"), "Bearer ", "")`.
 */
module Bearer {
  import opened GoStrings

  const BEARER_PREFIX := "Bearer "

  /**
   * Every occurrence of "Bearer " is deleted, wherever it stands, not only a
   * leading one.
   */
  function StripBearer(authorization: string): string {
    ReplaceAll(authorization, BEARER_PREFIX, "")
  }

  /** A value without "Bearer " is left as it is. */
  lemma StripBearerAbsent(v: string)
    requires !Contains(v, BEARER_PREFIX)
    ensures StripBearer(v) == v
  {
    ReplaceAllAbsent(v, BEARER_PREFIX, "");
  }

  /** The usual header `Bearer <credential>` yields the credential, when it holds no "Bearer " itself. */
  lemma StripBearerPrefix(credential: string)
    requires !Contains(credential, BEARER_PREFIX)
    ensures StripBearer(BEARER_PREFIX + credential) == credential
  {
    var s := BEARER_PREFIX + credential;
    assert s[..|BEARER_PREFIX|] == BEARER_PREFIX;
    assert OccursAt(s, BEARER_PREFIX, 0);
    ReplaceAllAtFirst(s, BEARER_PREFIX, "", 0);
    assert s[|BEARER_PREFIX|..] == credential;
    ReplaceAllAbsent(credential, BEARER_PREFIX, "");
  }

  /** An occurrence in the middle goes too: "Bearer " inside the value is removed as well. */
  lemma StripBearerInside(x: string, y: string)
    requires !Contains(x, BEARER_PREFIX) && !Contains(y, BEARER_PREFIX)
    ensures StripBearer(x + BEARER_PREFIX + y) == x + y
  {
    var p := BEARER_PREFIX;
    var s := x + p + y;
    var n := |x|;
    assert s[n..n + |p|] == p;
    assert OccursAt(s, p, n);
    forall j: nat | j < n ensures !OccursAt(s, p, j) {
      if j + |p| <= n {
        assert s[j..j + |p|] == x[j..j + |p|];
        assert !OccursAt(x, p, j);
      } else {
        assert s[j..j + |p|][n - j] == s[n] == 'B' != p[n - j];
      }
    }
    ReplaceAllAtFirst(s, p, "", n);
    assert s[..n] == x && s[n + |p|..] == y;
    ReplaceAllAbsent(y, p, "");
  }
}
