/** Scheme normalisation, as both extractors perform it, and the part of the
    standard URL splitter (`urllib.parse.urlparse`) that they rely on, for
    URLs that already start with `http://` or `https://`. */
module Urls {
  import opened Wrappers
  import opened Text

  const HttpPrefix: string := "http://"
  const HttpsPrefix: string := "https://"

  predicate HasHttpScheme(url: string) {
    StartsWith(url, HttpPrefix) || StartsWith(url, HttpsPrefix)
  }

  /** Prepends `http://` unless the URL already starts with `http://` or `https://`. */
  function WithScheme(url: string): (r: string)
    ensures HasHttpScheme(r)
    ensures HasHttpScheme(url) ==> r == url
    ensures !HasHttpScheme(url) ==> r == HttpPrefix + url
    ensures |url| <= |r| <= |url| + |HttpPrefix| && r[|r| - |url|..] == url
  {
    if HasHttpScheme(url) then url else HttpPrefix + url
  }

  /** Normalising a normalised URL changes nothing. */
  lemma WithSchemeIdempotent(url: string)
    ensures WithScheme(WithScheme(url)) == WithScheme(url)
  {
  }

  /** Position where the network location begins: just after the `//`. */
  function AuthorityStart(url: string): (n: nat)
    requires HasHttpScheme(url)
    ensures |HttpPrefix| <= n <= |url| && url[n - 2..n] == "//"
    ensures url[..n] == HttpPrefix || url[..n] == HttpsPrefix
  {
    if StartsWith(url, HttpsPrefix) then |HttpsPrefix| else |HttpPrefix|
  }

  /** The scheme the splitter reports: the text before the first colon, lower-cased. */
  function Scheme(url: string): (r: string)
    requires HasHttpScheme(url)
    ensures r == "https" <==> StartsWith(url, HttpsPrefix)
    ensures r == url[..AuthorityStart(url) - 3]
  {
    if StartsWith(url, HttpsPrefix) then "https" else "http"
  }

  /** The longest prefix of `s` that holds none of the `stops`. */
  function TakeUntil(s: string, stops: set<char>): (r: string)
    ensures r <= s
    ensures forall i :: 0 <= i < |r| ==> r[i] !in stops
    ensures |r| == |s| || s[|r|] in stops
  {
    if s == [] || s[0] in stops then [] else [s[0]] + TakeUntil(s[1..], stops)
  }

  /** The raw network location: the text after `//` up to the first `/`, `?` or `#`. */
  function NetlocSpan(url: string): (r: string)
    requires HasHttpScheme(url)
    ensures AuthorityStart(url) + |r| <= |url|
    ensures r == url[AuthorityStart(url)..AuthorityStart(url) + |r|]
    ensures '/' !in r && '?' !in r && '#' !in r
    ensures var n := AuthorityStart(url) + |r|; n == |url| || url[n] in {'/', '?', '#'}
  {
    var start := AuthorityStart(url);
    var r := TakeUntil(url[start..], {'/', '?', '#'});
    assert r == url[start..][..|r|];
    r
  }

  /** `urlparse(url).netloc`; the splitter raises ValueError ("Invalid IPv6 URL")
      when the network location holds one square bracket without the other. */
  function Netloc(url: string): (r: Option<string>)
    requires HasHttpScheme(url)
    ensures r.None? <==> (('[' in NetlocSpan(url)) != (']' in NetlocSpan(url)))
    ensures r.Some? ==> r.value == NetlocSpan(url)
  {
    var span := NetlocSpan(url);
    if ('[' in span) != (']' in span) then None else Some(span)
  }
}
