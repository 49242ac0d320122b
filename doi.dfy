/**
  DOI link normalisation of the paper page card (`formatDoiUrl`): a DOI or a
  DOI URL is turned into a resolvable `dx.doi.org` link.
 */
module Doi {
  import opened Common

  const HttpPrefix: string := "http://dx.doi.org/"
  const HttpsPrefix: string := "https://dx.doi.org/"

  /** JavaScript truthiness of an optional string: absent or empty is falsy. */
  predicate Truthy(url: Option<string>) {
    url.Some? && url.value != ""
  }

  predicate EndsWith(s: string, suffix: string) {
    |suffix| <= |s| && s[|s| - |suffix|..] == suffix
  }

  /**
    `formatDoiUrl(url)`. A falsy input gives `undefined`; a link on either
    `dx.doi.org` prefix is kept; anything else, other URLs included, gets the
    https prefix in front.
   */
  function FormatDoiUrl(url: Option<string>): (r: Option<string>)
    ensures r.None? <==> !Truthy(url)
    ensures Truthy(url) ==> (HttpPrefix <= r.value || HttpsPrefix <= r.value)
    ensures Truthy(url) ==> EndsWith(r.value, url.value)
    ensures Truthy(url) && (HttpPrefix <= url.value || HttpsPrefix <= url.value) ==> r == url
    ensures Truthy(url) && !(HttpPrefix <= url.value) && !(HttpsPrefix <= url.value) ==>
              r == Some(HttpsPrefix + url.value)
  {
    if !Truthy(url) then None
    else if HttpPrefix <= url.value then url
    else if !(HttpsPrefix <= url.value) then
      var prefixed := HttpsPrefix + url.value;
      assert prefixed[|prefixed| - |url.value|..] == url.value;
      Some(prefixed)
    else url
  }

  /** Normalising a normalised link changes nothing. */
  lemma FormatDoiUrlIdempotent(url: Option<string>)
    ensures FormatDoiUrl(FormatDoiUrl(url)) == FormatDoiUrl(url)
  {
    if Truthy(url) && !(HttpPrefix <= url.value) && !(HttpsPrefix <= url.value) {
      var r := HttpsPrefix + url.value;
      assert r[..|HttpsPrefix|] == HttpsPrefix;
    }
  }

  const DoiHost: string := "dx.doi.org/"

  /**
    A URL on any other host is not recognised: every `http://` or `https://`
    link whose host part is not `dx.doi.org/` gets the https prefix in front
    of its scheme.
   */
  lemma OtherHostsAreNotRecognised(scheme: string, rest: string)
    requires scheme == "http://" || scheme == "https://"
    requires !(DoiHost <= rest)
    ensures FormatDoiUrl(Some(scheme + rest)) == Some(HttpsPrefix + scheme + rest)
  {
    var u := scheme + rest;
    assert HttpPrefix == "http://" + DoiHost && HttpsPrefix == "https://" + DoiHost;
    assert u[4] == scheme[4];
    if scheme == "http://" {
      SharedPrefix(scheme, DoiHost, rest);
      assert u[4] != HttpsPrefix[4];
    } else {
      SharedPrefix(scheme, DoiHost, rest);
      assert u[4] != HttpPrefix[4];
    }
    assert (HttpsPrefix + scheme) + rest == HttpsPrefix + u;
  }

  /** A common head does not change whether one string starts with another. */
  lemma SharedPrefix(a: string, b: string, c: string)
    ensures a + b <= a + c <==> b <= c
  {
    if a + b <= a + c {
      assert forall i :: 0 <= i < |b| ==> b[i] == (a + b)[|a| + i] == (a + c)[|a| + i] == c[i];
    }
  }
}
