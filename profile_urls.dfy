/**
 * The string helpers of the content script: the profile id taken from a profile URL
 * (`extractProfileId`, content.js:343-346), the featured-section URL of the second-pass
 * check (content.js:279-281) and the URL opened when a resume icon is clicked
 * (`openProfileResume`, content.js:548-563).
 */
module ProfileUrls {
  import opened Wrappers

  type Url = string

  /** The characters of the class `[^\/\?]`. */
  predicate IsIdChar(c: char) {
    c != '/' && c != '?'
  }

  /** The regex `\/in\/([^\/\?]+)` matches at position `p`: "/in/" then at least one id character. */
  predicate MatchesAt(url: Url, p: nat) {
    p + 4 < |url| && url[p..p + 4] == "/in/" && IsIdChar(url[p + 4])
  }

  /** `p` is where a leftmost-first regex search reports the match. */
  ghost predicate IsFirstMatch(url: Url, p: nat) {
    MatchesAt(url, p) && forall q: nat :: q < p ==> !MatchesAt(url, q)
  }

  /** Length of the greedy run of id characters starting at `i`. */
  function IdRunLength(url: Url, i: nat): (n: nat)
    requires i <= |url|
    ensures i + n <= |url|
    ensures forall j :: i <= j < i + n ==> IsIdChar(url[j])
    ensures i + n == |url| || !IsIdChar(url[i + n])
    decreases |url| - i
  {
    if i == |url| || !IsIdChar(url[i]) then 0 else 1 + IdRunLength(url, i + 1)
  }

  /** The leftmost position at or after `from` where the regex matches. */
  function FirstMatch(url: Url, from: nat): (r: Option<nat>)
    ensures r.Some? ==> from <= r.value && MatchesAt(url, r.value)
    ensures forall q: nat :: from <= q && (r.None? || q < r.value) ==> !MatchesAt(url, q)
    decreases |url| - from
  {
    if |url| <= from + 4 then None
    else if MatchesAt(url, from) then Some(from)
    else FirstMatch(url, from + 1)
  }

  /**
   * `url.match(/\/in\/([^\/\?]+)/)` and its first capture group, or the URL itself when
   * nothing matches. On a match the id is the whole run of id characters after the
   * leftmost "/in/", so it is never empty and holds neither '/' nor '?'.
   */
  function ExtractProfileId(url: Url): (id: string)
    ensures (forall p: nat :: !MatchesAt(url, p)) ==> id == url
    ensures forall p: nat :: IsFirstMatch(url, p) ==>
      && 1 <= |id|
      && p + 4 + |id| <= |url|
      && id == url[p + 4..p + 4 + |id|]
      && (forall c :: c in id ==> IsIdChar(c))
      && (p + 4 + |id| == |url| || !IsIdChar(url[p + 4 + |id|]))
  {
    match FirstMatch(url, 0)
    case None => url
    case Some(p) => url[p + 4..p + 4 + IdRunLength(url, p + 4)]
  }

  /** Every URL either has a leftmost match or none at all, so the two cases above are exhaustive. */
  lemma FirstMatchExists(url: Url, p: nat)
    requires MatchesAt(url, p)
    ensures exists m: nat :: m <= p && IsFirstMatch(url, m)
  {
    var r := FirstMatch(url, 0);
    assert r.Some? && r.value <= p;
    assert IsFirstMatch(url, r.value);
  }

  predicate EndsWithSlash(s: string) {
    |s| > 0 && s[|s| - 1] == '/'
  }

  /** `if (!u.endsWith('/')) u += '/'`: the shortest extension of `u` that ends in '/'. */
  function WithTrailingSlash(u: Url): (r: Url)
    ensures EndsWithSlash(r)
    ensures u <= r && |r| <= |u| + 1
    ensures EndsWithSlash(u) ==> r == u
  {
    if EndsWithSlash(u) then u else u + "/"
  }

  const FeaturedSection: string := "details/featured/"

  /**
   * The URL of the featured-section fetch in `processProfileCard`: the profile URL, a slash
   * unless it already ends with one, then "details/featured/". The query string is kept.
   */
  function FeaturedUrl(profileUrl: Url): (r: Url)
    ensures r == WithTrailingSlash(profileUrl) + FeaturedSection
    ensures profileUrl <= r
    ensures r[|r| - |FeaturedSection| - 1..] == "/" + FeaturedSection
  {
    if EndsWithSlash(profileUrl) then profileUrl + FeaturedSection
    else profileUrl + "/" + FeaturedSection
  }

  /** `u.split('?')[0]`: everything before the first '?'. */
  function StripQuery(u: Url): (r: Url)
    ensures r <= u
    ensures '?' !in r
    ensures |r| == |u| || u[|r|] == '?'
  {
    if u == [] then []
    else if u[0] == '?' then []
    else [u[0]] + StripQuery(u[1..])
  }

  /**
   * The URL `openProfileResume` opens: the query removed, a trailing slash forced, then the
   * first of its candidate sections, "details/featured/".
   */
  function ResumeUrl(profileUrl: Url): (r: Url)
    ensures r == WithTrailingSlash(StripQuery(profileUrl)) + FeaturedSection
    ensures '?' !in r
  {
    var cleanUrl := StripQuery(profileUrl);
    var cleanUrl' := if !EndsWithSlash(cleanUrl) then cleanUrl + "/" else cleanUrl;
    cleanUrl' + FeaturedSection
  }

  /** The URL opened on click is the featured-section URL of the query-free profile URL. */
  lemma ResumeUrlIsFeaturedUrlOfCleanUrl(profileUrl: Url)
    ensures ResumeUrl(profileUrl) == FeaturedUrl(StripQuery(profileUrl))
  {
  }

  /** Stripping the query twice changes nothing more. */
  lemma {:induction false} StripQueryIdempotent(u: Url)
    ensures StripQuery(StripQuery(u)) == StripQuery(u)
  {
    if u != [] && u[0] != '?' {
      StripQueryIdempotent(u[1..]);
      assert StripQuery(u) == [u[0]] + StripQuery(u[1..]);
      assert StripQuery(u)[1..] == StripQuery(u[1..]);
    }
  }

  /** A URL without a query is left as it is by `split('?')[0]`. */
  lemma {:induction false} StripQueryNoQuery(u: Url)
    requires '?' !in u
    ensures StripQuery(u) == u
  {
    if u != [] {
      assert u[0] in u;
      assert forall c :: c in u[1..] ==> c in u;
      StripQueryNoQuery(u[1..]);
    }
  }

  /**
   * The two builders agree exactly on URLs without a query; with one, the featured-section
   * fetch puts "details/featured/" after the query, where the opened URL strips it.
   */
  lemma FeaturedUrlVersusResumeUrl(profileUrl: Url)
    ensures '?' !in profileUrl ==> FeaturedUrl(profileUrl) == ResumeUrl(profileUrl)
    ensures '?' in profileUrl ==> '?' in FeaturedUrl(profileUrl) && FeaturedUrl(profileUrl) != ResumeUrl(profileUrl)
  {
    if '?' !in profileUrl {
      StripQueryNoQuery(profileUrl);
    } else {
      var r := FeaturedUrl(profileUrl);
      var i :| 0 <= i < |profileUrl| && profileUrl[i] == '?';
      assert r[i] == '?';
      assert '?' !in ResumeUrl(profileUrl);
    }
  }
}
