/**
 * Request URLs of the gallery: the listing endpoint for the plain photo
 * feed and the search endpoint for a keyword, both authenticated by the
 * access key passed as the `client_id` parameter.
 */
module Urls {
  import opened Decimal

  const MainUrl: string := "https://api.unsplash.com/photos/"
  const SearchUrl: string := "https://api.unsplash.com/search/photos/"
  const PageParam: string := "&page="
  const QueryParam: string := "&query="

  /** The `clientID` constant, built from the access key read from the environment. */
  function ClientId(accessKey: string): string {
    "?client_id=" + accessKey
  }

  predicate IsPrefix(p: string, s: string) {
    |p| <= |s| && s[..|p|] == p
  }

  /** The request parameters a URL carries. */
  datatype UrlParams = UrlParams(query: string, page: nat)

  /**
   * The URL fetched for a (query, page) snapshot. A non-empty query selects
   * the search endpoint and adds a `query` parameter; the empty query selects
   * the listing endpoint and carries only the page. The URL determines the
   * snapshot: parsing it gives back exactly the query and the page.
   */
  function FetchUrl(accessKey: string, query: string, page: nat): (url: string)
    ensures IsPrefix(SearchUrl, url) <==> query != ""
    ensures IsPrefix(MainUrl, url) <==> query == ""
    ensures ParseUrl(accessKey, url) == Some(UrlParams(query, page))
  {
    var url :=
      if query != "" then SearchUrl + ClientId(accessKey) + PageParam + NatToString(page) + QueryParam + query
      else MainUrl + ClientId(accessKey) + PageParam + NatToString(page);
    ParseFetchUrl(accessKey, query, page, url);
    url
  }

  datatype Option<T> = None | Some(value: T)

  /**
   * Recovers the parameters from a URL built for the given access key:
   * on the search endpoint a page number followed by a non-empty query,
   * on the listing endpoint a page number and nothing after it. The page
   * must be written in its shortest decimal form, as JavaScript writes it.
   */
  function ParseUrl(accessKey: string, url: string): Option<UrlParams> {
    var search := SearchUrl + ClientId(accessKey) + PageParam;
    var main := MainUrl + ClientId(accessKey) + PageParam;
    if IsPrefix(search, url) then
      var rest := url[|search|..];
      var n := SpanDigits(rest);
      var tail := rest[n..];
      if 0 < n && rest[..n] == NatToString(ParseNat(rest[..n]))
         && IsPrefix(QueryParam, tail) && |QueryParam| < |tail|
      then Some(UrlParams(tail[|QueryParam|..], ParseNat(rest[..n])))
      else None
    else if IsPrefix(main, url) then
      var rest := url[|main|..];
      if AllDigits(rest) && rest == NatToString(ParseNat(rest))
      then Some(UrlParams("", ParseNat(rest))) else None
    else None
  }

  /** The listing and search endpoints part ways at character 25. */
  lemma EndpointsDiffer(s: string)
    ensures IsPrefix(SearchUrl, s) ==> !IsPrefix(MainUrl, s)
  {
    if IsPrefix(SearchUrl, s) {
      assert s[25] == 's';
    }
  }

  lemma ParseFetchUrl(accessKey: string, query: string, page: nat, url: string)
    requires url == if query != "" then SearchUrl + ClientId(accessKey) + PageParam + NatToString(page) + QueryParam + query
                    else MainUrl + ClientId(accessKey) + PageParam + NatToString(page)
    ensures IsPrefix(SearchUrl, url) <==> query != ""
    ensures IsPrefix(MainUrl, url) <==> query == ""
    ensures ParseUrl(accessKey, url) == Some(UrlParams(query, page))
  {
    EndpointsDiffer(url);
    if query != "" {
      ParseSearchUrl(accessKey, query, page, url);
    } else {
      ParseListingUrl(accessKey, page, url);
    }
  }

  lemma ParseSearchUrl(accessKey: string, query: string, page: nat, url: string)
    requires query != ""
    requires url == SearchUrl + ClientId(accessKey) + PageParam + NatToString(page) + QueryParam + query
    ensures IsPrefix(SearchUrl, url)
    ensures ParseUrl(accessKey, url) == Some(UrlParams(query, page))
  {
    var search := SearchUrl + ClientId(accessKey) + PageParam;
    var digits := NatToString(page);
    ParseNatToString(page);
    assert url == search + (digits + (QueryParam + query));
    assert url[..|SearchUrl|] == SearchUrl;
    var rest := url[|search|..];
    assert rest == digits + (QueryParam + query);
    SpanDigitsOfNumber(digits, QueryParam + query);
    assert rest[..|digits|] == digits;
    assert rest[|digits|..] == QueryParam + query;
  }

  lemma ParseListingUrl(accessKey: string, page: nat, url: string)
    requires url == MainUrl + ClientId(accessKey) + PageParam + NatToString(page)
    ensures IsPrefix(MainUrl, url)
    ensures ParseUrl(accessKey, url) == Some(UrlParams("", page))
  {
    var search := SearchUrl + ClientId(accessKey) + PageParam;
    var main := MainUrl + ClientId(accessKey) + PageParam;
    var digits := NatToString(page);
    ParseNatToString(page);
    assert url == main + digits;
    assert url[..|MainUrl|] == MainUrl;
    EndpointsDiffer(url);
    assert !IsPrefix(search, url);
    assert url[|main|..] == digits;
  }

  /**
   * A listing URL whose page is written with a leading zero (`00`, `01`,
   * `007`, ...) is not one the gallery builds: it parses to nothing and
   * differs from every URL built for the listing endpoint.
   */
  lemma PaddedPageRejected(accessKey: string, d: string, page: nat)
    requires AllDigits(d) && |d| > 1 && d[0] == '0'
    ensures ParseUrl(accessKey, MainUrl + ClientId(accessKey) + PageParam + d) == None
    ensures MainUrl + ClientId(accessKey) + PageParam + d != FetchUrl(accessKey, "", page)
  {
    var main := MainUrl + ClientId(accessKey) + PageParam;
    var url := main + d;
    assert url[..|MainUrl|] == MainUrl;
    EndpointsDiffer(url);
    assert url[|main|..] == d;
    if d == NatToString(ParseNat(d)) {
      assert false;
    }
  }

  /**
   * Different snapshots never build the same URL string. This is about the
   * string only: the query is not encoded, so the request the API receives
   * can still coincide (see the README).
   */
  lemma FetchUrlInjective(accessKey: string, q1: string, p1: nat, q2: string, p2: nat)
    requires FetchUrl(accessKey, q1, p1) == FetchUrl(accessKey, q2, p2)
    ensures q1 == q2 && p1 == p2
  {
  }
}
