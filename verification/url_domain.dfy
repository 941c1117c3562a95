/** `$urlToDomain` of recipe/bedrock_db.php: PHP's rtrim with "/" followed
    by a case-insensitive regular-expression replacement of a leading scheme.
    The trailing slashes go first; then a leading `http://` or `https://`, in
    any case, is dropped when at least one character that PCRE's `.` accepts
    (anything but a line feed) follows it. Text after a line feed is outside
    the match and stays in place, so the replacement always keeps the whole
    remainder. */
module UrlDomain {
  import opened Strings

  /** Whether t starts with the lower-case literal lit, ignoring ASCII case. */
  predicate StartsCaseless(t: string, lit: string) {
    |lit| <= |t| && forall i | 0 <= i < |lit| :: LowerAscii(t[i]) == lit[i]
  }

  /** Length of the `https?://` the pattern removes from t, or 0 when it does
      not match. The optional 's' is tried first; if `(.+)` then fails, the
      shorter branch needs t[4] == ':' where an 's' stands, so it fails too. */
  function SchemeLength(t: string): (n: nat)
    ensures n == 0 || n == 7 || n == 8
    ensures n > 0 ==> n < |t| && t[n] != '\n'
    ensures n > 0 ==> IsScheme(t[..n])
  {
    if StartsCaseless(t, "https://") && |t| > 8 && t[8] != '\n' then 8
    else if StartsCaseless(t, "http://") && |t| > 7 && t[7] != '\n' then 7
    else 0
  }

  /** The domain of a site URL: no trailing slash, no scheme. */
  function UrlToDomain(url: string): (d: string)
    ensures !EndsWithSlash(d)
  {
    var t := TrimTrailingSlashes(url);
    t[SchemeLength(t)..]
  }

  /** `http://` or `https://`, letters in any case. */
  predicate IsScheme(s: string) {
    LowerAsciiString(s) == "http://" || LowerAsciiString(s) == "https://"
  }

  /** t begins with a scheme followed by a character other than a line feed. */
  predicate HasSchemePrefix(t: string) {
    exists n | 0 <= n < |t| :: IsScheme(t[..n]) && t[n] != '\n'
  }

  lemma SchemeLengthOfScheme(t: string, n: nat)
    requires n < |t| && IsScheme(t[..n]) && t[n] != '\n'
    ensures SchemeLength(t) == n
  {
    var s := t[..n];
    var low := LowerAsciiString(s);
    assert |s| == n;
    if low == "https://" {
      assert forall i | 0 <= i < 8 :: LowerAscii(t[i]) == low[i];
      assert StartsCaseless(t, "https://");
    } else {
      assert low == "http://";
      assert forall i | 0 <= i < 7 :: LowerAscii(t[i]) == low[i];
      assert StartsCaseless(t, "http://");
      assert LowerAscii(t[4]) == ':';
      assert !StartsCaseless(t, "https://");
    }
  }

  lemma SchemeOfSchemeLength(t: string)
    requires SchemeLength(t) > 0
    ensures IsScheme(t[..SchemeLength(t)]) && t[SchemeLength(t)] != '\n'
  {
  }

  /** Round trip: a domain wrapped in a scheme and any number of trailing
      slashes comes back unchanged, provided it is non-empty, does not start
      with a line feed and does not itself end in '/'. */
  lemma {:induction false} UrlToDomainStripsScheme(scheme: string, domain: string, k: nat)
    requires IsScheme(scheme)
    requires domain != [] && domain[0] != '\n' && !EndsWithSlash(domain)
    ensures UrlToDomain(scheme + domain + Slashes(k)) == domain
  {
    var u := scheme + domain;
    assert scheme + domain + Slashes(k) == u + Slashes(k);
    assert u[|u| - 1] == domain[|domain| - 1];
    TrimTrailingSlashesOfPadded(u, k);
    assert u[..|scheme|] == scheme;
    assert u[|scheme|] == domain[0];
    SchemeLengthOfScheme(u, |scheme|);
    assert u[|scheme|..] == domain;
  }

  /** The URL changes beyond losing its trailing slashes exactly when the
      trimmed URL begins with a scheme followed by a non-line-feed character;
      otherwise the result is the trimmed URL itself. */
  lemma UrlToDomainStripsOnlySchemes(url: string)
    ensures UrlToDomain(url) != TrimTrailingSlashes(url) <==> HasSchemePrefix(TrimTrailingSlashes(url))
    ensures !HasSchemePrefix(TrimTrailingSlashes(url)) ==> UrlToDomain(url) == TrimTrailingSlashes(url)
  {
    var t := TrimTrailingSlashes(url);
    if HasSchemePrefix(t) {
      var m :| 0 <= m < |t| && IsScheme(t[..m]) && t[m] != '\n';
      SchemeLengthOfScheme(t, m);
    }
    if SchemeLength(t) > 0 {
      SchemeOfSchemeLength(t);
    }
  }

  lemma UrlToDomainExampleHttp()
    ensures UrlToDomain("http://site.local/") == "site.local"
  {
    UrlToDomainStripsScheme("http://", "site.local", 1);
    assert "http://" + "site.local" + Slashes(1) == "http://site.local/";
  }

  lemma UrlToDomainExampleUpperCase()
    ensures UrlToDomain("HTTPS://Example.com//") == "Example.com"
  {
    UrlToDomainStripsScheme("HTTPS://", "Example.com", 2);
    assert "HTTPS://" + "Example.com" + Slashes(2) == "HTTPS://Example.com//";
  }

  lemma UrlToDomainExampleHttps()
    ensures UrlToDomain("https://example.com") == "example.com"
  {
    UrlToDomainStripsScheme("https://", "example.com", 0);
    assert Slashes(0) == [];
    assert "https://" + "example.com" + Slashes(0) == "https://example.com";
  }

  /** A bare scheme keeps its colon: nothing follows `https://` once the
      slashes are trimmed, so the pattern does not match. */
  lemma UrlToDomainExampleBareScheme()
    ensures UrlToDomain("https://") == "https:"
  {
    TrimTrailingSlashesOfPadded("https:", 2);
    assert "https:" + Slashes(2) == "https://";
  }
}
