/**
 * The URL helpers the scripts share: the app slug that follows
 * `apps.shopify.com/` in a reviews-page URL (`getSlug`, `getSlugFromUrl`,
 * `getAppSlug`, `appSlug`), and the app name left after stripping the URL's
 * host prefix and its `/reviews...` tail (`appName`).
 */
module Slugs {
  import opened Wrappers
  import opened Strs

  const Host: string := "apps.shopify.com/"
  const ShopPrefix: string := "https://apps.shopify.com/"
  const ReviewsTail: string := "/reviews"

  /** The reviews-page URL of an app, as the scraper's URL list spells it. */
  function ReviewsUrl(slug: string): string {
    ShopPrefix + slug + ReviewsTail
  }

  /** The slug pattern matches at i: the host, then one character that is not '/'. */
  predicate HostAt(s: string, i: nat) {
    i + |Host| < |s| && s[i..i + |Host|] == Host && s[i + |Host|] != '/'
  }

  /** The leftmost position at or after `from` where the slug pattern matches. */
  function FirstHost(s: string, from: nat): (r: Option<nat>)
    ensures r.Some? ==> from <= r.value && HostAt(s, r.value)
    ensures forall j: nat :: from <= j && (r.None? || j < r.value) ==> !HostAt(s, j)
    decreases |s| - from
  {
    if from + |Host| >= |s| then None
    else if HostAt(s, from) then Some(from)
    else FirstHost(s, from + 1)
  }

  /** The end of the run of non-'/' characters that starts at i. */
  function SegmentEnd(s: string, i: nat): (e: nat)
    requires i <= |s|
    ensures i <= e <= |s| && (e < |s| ==> s[e] == '/')
    ensures forall k :: i <= k < e ==> s[k] != '/'
    decreases |s| - i
  {
    if i == |s| || s[i] == '/' then i else SegmentEnd(s, i + 1)
  }

  /**
   * The first capture group of `/apps\.shopify\.com\/([^/]+)/` on s: the
   * non-empty run of non-'/' characters after the leftmost host occurrence
   * that has one.
   */
  function SlugMatch(s: string): (r: Option<string>)
    ensures r.Some? ==> r.value != [] && forall k :: 0 <= k < |r.value| ==> r.value[k] != '/'
    ensures r.Some? <==> exists i: nat :: HostAt(s, i)
  {
    match FirstHost(s, 0)
    case None => None
    case Some(i) =>
      var e := SegmentEnd(s, i + |Host|);
      Some(s[i + |Host|..e])
  }

  /** The slug read from a URL, or '' (`getSlug`, `getSlugFromUrl`; `String(undefined)` has no host). */
  function SlugOrEmpty(url: Option<string>): string {
    if url.None? then "" else SlugMatch(url.value).GetOr("")
  }

  /** `getAppSlug(url)`: '' for a missing or empty URL, else the slug or ''. */
  function ConfigSlug(url: Option<string>): string {
    if !Truthy(url) then "" else SlugMatch(url.value).GetOr("")
  }

  /** `appSlug(url)`: 'unknown' for a missing or empty URL, else the slug or the URL itself. */
  function AppSlug(url: Option<string>): string {
    if !Truthy(url) then "unknown" else SlugMatch(url.value).GetOr(url.value)
  }

  /** No match before `to` means the search from `from` gives what the search from `to` gives. */
  lemma {:induction false} FirstHostSkip(s: string, from: nat, upto: nat)
    requires from <= upto
    requires forall j: nat :: from <= j < upto ==> !HostAt(s, j)
    ensures FirstHost(s, from) == FirstHost(s, upto)
    decreases upto - from
  {
    if from < upto {
      FirstHostSkip(s, from + 1, upto);
    }
  }

  lemma {:induction false} SegmentEndSkip(s: string, i: nat, e: nat)
    requires i <= e <= |s| && (e < |s| ==> s[e] == '/')
    requires forall k :: i <= k < e ==> s[k] != '/'
    ensures SegmentEnd(s, i) == e
    decreases e - i
  {
    if i < e {
      SegmentEndSkip(s, i + 1, e);
    }
  }

  /** The slug pattern cannot match where the character is not the host's first. */
  lemma NotHostAt(s: string, j: nat)
    requires j < |s| && s[j] != Host[0]
    ensures !HostAt(s, j)
  {
    if j + |Host| <= |s| {
      assert s[j..j + |Host|][0] == s[j];
    }
  }

  lemma NotReviewsAt(s: string, j: nat)
    requires j < |s| && s[j] != '/'
    ensures !ReviewsAt(s, j)
  {
    if j + |ReviewsTail| <= |s| {
      assert s[j..j + |ReviewsTail|][0] == s[j];
    }
  }

  /** A slug whose characters are not '/', followed by nothing or by a path, is read back exactly. */
  lemma SlugOfUrl(slug: string, rest: string)
    requires slug != [] && forall k :: 0 <= k < |slug| ==> slug[k] != '/'
    requires rest == [] || rest[0] == '/'
    ensures SlugMatch(ShopPrefix + slug + rest) == Some(slug)
  {
    var s := ShopPrefix + slug + rest;
    var p := |ShopPrefix| - |Host|;
    assert s[..|ShopPrefix|] == ShopPrefix;
    forall j: nat | j < p ensures s[j] == ShopPrefix[j] && s[j] != Host[0] {
      assert s[..|ShopPrefix|][j] == s[j];
    }
    forall j: nat | j < p ensures !HostAt(s, j) {
      NotHostAt(s, j);
    }
    assert s[p..p + |Host|] == Host;
    assert s[p + |Host|] == slug[0];
    FirstHostSkip(s, 0, p);
    assert FirstHost(s, p) == Some(p);
    forall k | |ShopPrefix| <= k < |ShopPrefix| + |slug| ensures s[k] != '/' {
      assert s[k] == slug[k - |ShopPrefix|];
    }
    if rest != [] {
      assert s[|ShopPrefix| + |slug|] == rest[0];
    }
    SegmentEndSkip(s, |ShopPrefix|, |ShopPrefix| + |slug|);
    assert s[|ShopPrefix|..|ShopPrefix| + |slug|] == slug;
  }

  /** Every slug reader gives back the slug of an app's reviews-page URL. */
  lemma SlugOfReviewsUrl(slug: string)
    requires slug != [] && forall k :: 0 <= k < |slug| ==> slug[k] != '/'
    ensures SlugOrEmpty(Some(ReviewsUrl(slug))) == slug
    ensures ConfigSlug(Some(ReviewsUrl(slug))) == slug
    ensures AppSlug(Some(ReviewsUrl(slug))) == slug
  {
    SlugOfUrl(slug, ReviewsTail);
  }

  /** `getAppSlug` and `getSlugFromUrl` agree on every input; `appSlug` differs only where they give ''. */
  lemma SlugReadersAgree(url: Option<string>)
    ensures ConfigSlug(url) == SlugOrEmpty(url)
    ensures SlugOrEmpty(url) != "" ==> AppSlug(url) == SlugOrEmpty(url)
    ensures SlugOrEmpty(url) == "" ==> AppSlug(url) == (if Truthy(url) then url.value else "unknown")
  {
    if url == Some("") {
      assert !HostAt("", 0);
    }
  }

  /** JavaScript line terminators, which `.` in a regular expression does not match. */
  predicate IsLineTerminator(c: char) {
    c == '\n' || c == '\r' || c == '\U{2028}' || c == '\U{2029}'
  }

  predicate NoLineTerminator(s: string, from: nat)
    requires from <= |s|
  {
    forall k :: from <= k < |s| ==> !IsLineTerminator(s[k])
  }

  /** `/\/reviews.*$/` matches at i: "/reviews" there and no line terminator after it. */
  predicate ReviewsAt(s: string, i: nat) {
    i + |ReviewsTail| <= |s| && s[i..i + |ReviewsTail|] == ReviewsTail && NoLineTerminator(s, i + |ReviewsTail|)
  }

  function FirstReviews(s: string, from: nat): (r: Option<nat>)
    ensures r.Some? ==> from <= r.value && ReviewsAt(s, r.value)
    ensures forall j: nat :: from <= j && (r.None? || j < r.value) ==> !ReviewsAt(s, j)
    decreases |s| - from
  {
    if from + |ReviewsTail| > |s| then None
    else if ReviewsAt(s, from) then Some(from)
    else FirstReviews(s, from + 1)
  }

  /** The host prefix removed, then everything from the matching "/reviews" on. */
  function StripUrl(url: string): (r: string)
    ensures |r| <= |url|
  {
    var s := if StartsWith(url, ShopPrefix) then url[|ShopPrefix|..] else url;
    match FirstReviews(s, 0)
    case None => s
    case Some(i) => s[..i]
  }

  /** `appName(url)` of the diff report: '' for a missing URL, else the stripped URL or the URL. */
  function AppName(url: Option<string>): (r: string)
    ensures r == "" <==> !Truthy(url)
  {
    if !Truthy(url) then "" else if StripUrl(url.value) != "" then StripUrl(url.value) else url.value
  }

  /** The scraper summary's name: the stripped URL or, when that is empty, the URL as it was (possibly absent). */
  function SummaryName(url: Option<string>): (r: Option<string>)
  {
    var n := StripUrl(OrEmpty(url));
    if n != "" then Some(n) else url
  }

  /** The two copies of `appName` agree wherever the URL is present and non-empty. */
  lemma SummaryNameIsAppName(url: Option<string>)
    ensures Truthy(url) ==> SummaryName(url) == Some(AppName(url))
    ensures url == None ==> SummaryName(url) == None
  {
  }

  /** The name of an app's reviews page is its slug. */
  lemma AppNameOfReviewsUrl(slug: string)
    requires slug != [] && forall k :: 0 <= k < |slug| ==> slug[k] != '/' && !IsLineTerminator(slug[k])
    ensures AppName(Some(ReviewsUrl(slug))) == slug
    ensures SummaryName(Some(ReviewsUrl(slug))) == Some(slug)
  {
    var url := ReviewsUrl(slug);
    assert url[..|ShopPrefix|] == ShopPrefix;
    var s := url[|ShopPrefix|..];
    assert s == slug + ReviewsTail;
    forall j: nat | j < |slug| ensures !ReviewsAt(s, j) {
      assert s[j] == slug[j];
      NotReviewsAt(s, j);
    }
    assert s[|slug|..] == ReviewsTail;
    assert ReviewsAt(s, |slug|);
    FirstReviewsSkip(s, 0, |slug|);
    assert s[..|slug|] == slug;
  }

  lemma {:induction false} FirstReviewsSkip(s: string, from: nat, upto: nat)
    requires from <= upto
    requires forall j: nat :: from <= j < upto ==> !ReviewsAt(s, j)
    ensures FirstReviews(s, from) == FirstReviews(s, upto)
    decreases upto - from
  {
    if from < upto {
      FirstReviewsSkip(s, from + 1, upto);
    }
  }
}
