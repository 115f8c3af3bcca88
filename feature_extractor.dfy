/** The lexical URL feature extractor: ten integer features computed from the
    text of a URL alone, in the order the classifier was trained on. */
module UrlFeatures {
  import opened Wrappers
  import opened Text
  import opened Urls

  /** The feature columns the classifier was trained on, in training order. */
  const EssentialFeatures: seq<string> := [
    "length_url", "length_hostname", "nb_dots", "nb_hyphens", "nb_slash",
    "https_token", "nb_subdomains", "prefix_suffix", "phish_hints", "suspecious_tld"
  ]

  /** Keywords whose presence anywhere in the lower-cased URL is a phishing hint. */
  const PhishKeywords: seq<string> := [
    "login", "verify", "secure", "account", "update", "banking", "password", "confirm"
  ]

  /** Suffix strings that mark a high-risk top-level domain (compared with the leading dot). */
  const SuspiciousTlds: seq<string> := [".tk", ".ml", ".ga", ".cf", ".gq"]

  /** What the public-suffix splitter reports for the URL; taken as an input. */
  datatype TldParts = TldParts(subdomain: string, suffix: string)

  /** The ten features, one field per column. */
  datatype UrlFeatureVector = UrlFeatureVector(
    lengthUrl: nat,
    lengthHostname: nat,
    nbDots: nat,
    nbHyphens: nat,
    nbSlash: nat,
    httpsToken: nat,
    nbSubdomains: nat,
    prefixSuffix: nat,
    phishHints: nat,
    suspiciousTld: nat)
  {
    /** The one-row frame handed to the classifier: named columns in training order. */
    function Row(): (row: seq<(string, int)>)
      ensures |row| == |EssentialFeatures|
      ensures forall i :: 0 <= i < |row| ==> row[i].0 == EssentialFeatures[i]
    {
      [("length_url", lengthUrl), ("length_hostname", lengthHostname), ("nb_dots", nbDots),
       ("nb_hyphens", nbHyphens), ("nb_slash", nbSlash), ("https_token", httpsToken),
       ("nb_subdomains", nbSubdomains), ("prefix_suffix", prefixSuffix),
       ("phish_hints", phishHints), ("suspecious_tld", suspiciousTld)]
    }
  }

  function Flag(b: bool): nat {
    if b then 1 else 0
  }

  /** Number of listed words that occur as substrings of `s`, each word counted once. */
  function HitCount(words: seq<string>, s: string): (n: nat)
    ensures n <= |words|
  {
    if words == [] then 0 else Flag(Contains(s, words[0])) + HitCount(words[1..], s)
  }

  predicate Distinct(words: seq<string>) {
    forall i, j :: 0 <= i < j < |words| ==> words[i] != words[j]
  }

  /** The words of the list that occur in `s`. */
  function Hits(words: seq<string>, s: string): (found: set<string>)
    ensures forall w :: w in found <==> w in words && Contains(s, w)
  {
    if words == [] then {}
    else
      var rest := Hits(words[1..], s);
      assert forall w :: w in words <==> w == words[0] || w in words[1..] by {
        assert words == [words[0]] + words[1..];
      }
      (if Contains(s, words[0]) then {words[0]} else {}) + rest
  }

  lemma DistinctHead(words: seq<string>)
    requires words != [] && Distinct(words)
    ensures Distinct(words[1..]) && words[0] !in words[1..]
  {
    forall j | 0 <= j < |words[1..]| ensures words[1..][j] != words[0] {
      assert words[1..][j] == words[j + 1];
    }
  }

  /** For a list without repeats, the hit count is the number of distinct words found. */
  lemma {:induction false} HitCountIsDistinctHits(words: seq<string>, s: string)
    requires Distinct(words)
    ensures HitCount(words, s) == |Hits(words, s)|
  {
    if words != [] {
      DistinctHead(words);
      HitCountIsDistinctHits(words[1..], s);
      var rest := Hits(words[1..], s);
      assert words[0] !in rest;
      if Contains(s, words[0]) {
        assert Hits(words, s) == {words[0]} + rest;
        assert |Hits(words, s)| == 1 + |rest|;
      } else {
        assert Hits(words, s) == rest;
      }
    }
  }

  /** `phish_hints`: keyword hits in the lower-cased URL. */
  function PhishHints(url: string): (n: nat)
    ensures n <= |PhishKeywords|
  {
    HitCount(PhishKeywords, Lower(url))
  }

  /** `nb_subdomains`: the non-empty dot-separated labels of the subdomain, 0 when it is empty.
      There are at most one more labels than dots, and none exactly when the subdomain is all dots. */
  function SubdomainCount(subdomain: string): (n: nat)
    ensures subdomain == [] ==> n == 0
    ensures n <= Count(subdomain, '.') + 1
    ensures n == 0 <==> forall i :: 0 <= i < |subdomain| ==> subdomain[i] == '.'
  {
    SplitAllEmpty(subdomain, '.');
    if subdomain == [] then 0 else CountNonEmpty(Split(subdomain, '.'))
  }

  /** `extract_url_features`. The result is None where the URL splitter raises. */
  function ExtractUrlFeatures(url: string, ext: TldParts): (r: Option<UrlFeatureVector>)
    ensures r.None? <==> Netloc(WithScheme(url)).None?
  {
    var u := WithScheme(url);
    match Netloc(u)
    case None => None
    case Some(rawNetloc) =>
      var netloc := Lower(rawNetloc);
      Some(UrlFeatureVector(
        lengthUrl := |u|,
        lengthHostname := |netloc|,
        nbDots := Count(u, '.'),
        nbHyphens := Count(u, '-'),
        nbSlash := Count(u, '/'),
        httpsToken := Flag(Scheme(u) == "https"),
        nbSubdomains := SubdomainCount(ext.subdomain),
        prefixSuffix := Flag('-' in netloc),
        phishHints := PhishHints(u),
        suspiciousTld := Flag(ext.suffix in SuspiciousTlds)))
  }

  /** Every successful extraction yields a frame with exactly the training columns, in order. */
  lemma FrameMatchesTraining(url: string, ext: TldParts)
    ensures ExtractUrlFeatures(url, ext).Some? ==> |ExtractUrlFeatures(url, ext).value.Row()| == 10
    ensures ExtractUrlFeatures(url, ext).Some? ==>
      forall i :: 0 <= i < 10 ==> ExtractUrlFeatures(url, ext).value.Row()[i].0 == EssentialFeatures[i]
  {
  }

  /** Dots, hyphens and slashes are occurrences of three different characters of the URL. */
  lemma CharacterCountsWithinLength(url: string, ext: TldParts)
    ensures ExtractUrlFeatures(url, ext).Some? ==> var v := ExtractUrlFeatures(url, ext).value;
      v.nbDots + v.nbHyphens + v.nbSlash <= v.lengthUrl
  {
    CountsOfDistinctCharsBound(WithScheme(url), '.', '-', '/');
  }

  /** The scheme prefix alone contributes two slashes and seven characters. */
  lemma SchemeContributesSlashes(url: string, ext: TldParts)
    ensures ExtractUrlFeatures(url, ext).Some? ==> var v := ExtractUrlFeatures(url, ext).value;
      v.nbSlash >= 2 && v.lengthUrl >= 7
  {
    SchemeSlashes(WithScheme(url));
  }

  lemma SchemeSlashes(u: string)
    requires HasHttpScheme(u)
    ensures Count(u, '/') >= 2 && |u| >= 7
  {
    var n := AuthorityStart(u);
    var tail := u[n - 2..];
    assert tail[..2] == u[n - 2..n];
    assert u == u[..n - 2] + tail;
    CountAppend(u[..n - 2], tail, '/');
    LeadingSlashes(tail);
  }

  lemma LeadingSlashes(t: string)
    requires |t| >= 2 && t[..2] == "//"
    ensures Count(t, '/') >= 2
  {
    assert t[0] == '/' && t[1..][0] == '/';
  }

  /** `https_token` is a 0/1 flag that is set exactly for a normalised URL beginning with `https://`. */
  lemma HttpsTokenIffHttpsPrefix(url: string, ext: TldParts)
    ensures ExtractUrlFeatures(url, ext).Some? ==> var v := ExtractUrlFeatures(url, ext).value;
      v.httpsToken <= 1 && (v.httpsToken == 1 <==> StartsWith(WithScheme(url), HttpsPrefix))
  {
  }

  /** The host is a piece of the URL after its scheme: it is at most seven characters shorter,
      and a hyphen in the host is a hyphen in the URL. */
  lemma HostnameWithinUrl(url: string, ext: TldParts)
    ensures ExtractUrlFeatures(url, ext).Some? ==> var v := ExtractUrlFeatures(url, ext).value;
      v.lengthHostname + 7 <= v.lengthUrl
      && v.prefixSuffix <= 1
      && (v.prefixSuffix == 1 <==> '-' in Lower(NetlocSpan(WithScheme(url))))
      && (v.prefixSuffix == 1 ==> v.nbHyphens >= 1)
  {
    NetlocWithinUrl(WithScheme(url));
  }

  lemma NetlocWithinUrl(u: string)
    requires HasHttpScheme(u)
    ensures |Lower(NetlocSpan(u))| + 7 <= |u|
    ensures '-' in Lower(NetlocSpan(u)) ==> Count(u, '-') >= 1
  {
    var start := AuthorityStart(u);
    var span := NetlocSpan(u);
    if '-' in Lower(span) {
      LowerKeepsNonLetter(span, '-');
      var i :| 0 <= i < |span| && span[i] == '-';
      assert u[start + i] == '-';
    }
  }

  /** `phish_hints` counts the distinct keywords found in the lower-cased URL, so it is at most 8. */
  lemma PhishHintsCountsDistinctKeywords(url: string)
    ensures PhishHints(url) == |Hits(PhishKeywords, Lower(url))|
    ensures forall w :: w in Hits(PhishKeywords, Lower(url)) <==> w in PhishKeywords && Contains(Lower(url), w)
    ensures PhishHints(url) <= 8
  {
    KeywordsDistinct();
    HitCountIsDistinctHits(PhishKeywords, Lower(url));
  }

  /** No keyword is listed twice: the eight keywords start with eight different letters. */
  lemma KeywordsDistinct()
    ensures Distinct(PhishKeywords)
  {
    var initials := "lvsaubpc";
    assert forall k :: 0 <= k < |PhishKeywords| ==> PhishKeywords[k] != [] && PhishKeywords[k][0] == initials[k];
    forall i, j | 0 <= i < j < |PhishKeywords| ensures PhishKeywords[i] != PhishKeywords[j] {
      assert initials[i] != initials[j];
    }
  }

  /** Keyword hits do not depend on the case of the URL. */
  lemma PhishHintsIgnoreCase(url: string)
    ensures PhishHints(Lower(url)) == PhishHints(url)
  {
    LowerIdempotent(url);
  }

  /** Two labels for the subdomain `a.b`, as for `a.b.example.com`. */
  lemma SubdomainCountExample()
    ensures SubdomainCount("a.b") == 2
    ensures SubdomainCount("") == 0
  {
    assert Split("b", '.') == ["b"] by {
      assert "b"[1..] == "";
      assert Split("", '.') == [""];
      assert ['b'] + "" == "b";
    }
    assert Split(".b", '.') == ["", "b"] by {
      assert ".b"[1..] == "b";
    }
    assert Split("a.b", '.') == ["a", "b"] by {
      assert "a.b"[1..] == ".b";
      assert ['a'] + "" == "a";
      assert ["", "b"][1..] == ["b"];
    }
    assert CountNonEmpty(["a", "b"]) == 2 by {
      assert ["a", "b"][1..] == ["b"];
      assert ["b"][1..] == [];
    }
  }

  /** `suspecious_tld` is a 0/1 flag set exactly when the suffix string is one of the five listed strings. */
  lemma SuspiciousTldIffListed(url: string, ext: TldParts)
    ensures ExtractUrlFeatures(url, ext).Some? ==> var v := ExtractUrlFeatures(url, ext).value;
      v.suspiciousTld <= 1
      && (v.suspiciousTld == 1 <==> ext.suffix in {".tk", ".ml", ".ga", ".cf", ".gq"})
  {
    var r := ExtractUrlFeatures(url, ext);
    if r.Some? {
      assert r.value.suspiciousTld == Flag(ext.suffix in SuspiciousTlds);
      SuspiciousTldsListed(ext.suffix);
    }
  }

  lemma SuspiciousTldsListed(suffix: string)
    ensures suffix in SuspiciousTlds <==> suffix in {".tk", ".ml", ".ga", ".cf", ".gq"}
  {
  }

  /** The extractor normalises the scheme first, so a URL and its normalised form give the same features. */
  lemma ExtractionIgnoresNormalisation(url: string, ext: TldParts)
    ensures ExtractUrlFeatures(WithScheme(url), ext) == ExtractUrlFeatures(url, ext)
  {
    WithSchemeIdempotent(url);
  }
}
