/**
 The two string transforms the dashboard applies to bookmark URLs: the
 scheme default added before an insert, and the scheme removal used when a
 stored URL is displayed. Both are plain, case-sensitive prefix tests; no URL
 is parsed or validated.
 */
module Urls {

  const Http: string := "http://"
  const Https: string := "https://"

  /** `u.startsWith("http://") || u.startsWith("https://")`. A string with
      either scheme is at least seven characters long and begins with `http`. */
  function HasScheme(u: string): (b: bool)
    ensures b ==> |u| >= |Http| && u[..4] == Http[..4]
  {
    Http <= u || Https <= u
  }

  /** The two recognised prefixes never both start the same string. */
  lemma SchemesExclusive(u: string)
    ensures !(Http <= u && Https <= u)
  {
    if Http <= u { assert u[4] == Http[4] == ':'; }
    if Https <= u { assert u[4] == Https[4] == 's'; }
  }

  /** The prefix the display strip removes: the scheme `u` starts with, if any. */
  function SchemeOf(u: string): (p: string)
    ensures p == Http || p == Https || p == []
    ensures p <= u
    ensures p == [] <==> !HasScheme(u)
  {
    if Https <= u then Https else if Http <= u then Http else []
  }

  /** The URL sent with an insert: an input that lacks a scheme gets
      `https://` in front of it; the input itself is never altered. */
  function Normalize(u: string): (r: string)
    ensures HasScheme(r)
    ensures |u| <= |r| && r[|r| - |u|..] == u
    ensures |r| == |u| || |r| == |Https| + |u|
  {
    if HasScheme(u) then u else Https + u
  }

  /** The text shown under a bookmark: `u.replace(/^https?:\/\//, "")`,
      which removes the scheme prefix `u` starts with, once, and leaves every
      other string as it is. */
  function StripScheme(u: string): (r: string)
    ensures u == SchemeOf(u) + r
    ensures HasScheme(u) <==> |r| < |u|
  {
    u[|SchemeOf(u)|..]
  }

  /** Normalisation leaves a URL alone exactly when it already has a scheme,
      and prepends `https://` otherwise. */
  lemma NormalizeKeepsIff(u: string)
    ensures Normalize(u) == u <==> HasScheme(u)
    ensures !HasScheme(u) ==> Normalize(u) == Https + u
  {
  }

  /** Normalising twice is normalising once. */
  lemma NormalizeIdempotent(u: string)
    ensures Normalize(Normalize(u)) == Normalize(u)
  {
  }

  /** A string whose first character is not `h` has no scheme. */
  lemma NoSchemeWithoutH(u: string)
    requires u == [] || u[0] != 'h'
    ensures !HasScheme(u)
  {
  }

  /** The prefix test is case-sensitive and runs on the untrimmed input:
      an upper-case scheme or a leading blank does not count as a scheme,
      so both get `https://` in front. */
  lemma NormalizeCaseSensitiveUntrimmed(rest: string)
    ensures Normalize("HTTP://" + rest) == Https + ("HTTP://" + rest)
    ensures Normalize("HTTPS://" + rest) == Https + ("HTTPS://" + rest)
    ensures Normalize(" " + rest) == Https + (" " + rest)
    ensures Normalize(" " + Http + rest) == Https + (" " + Http + rest)
  {
    NoSchemeWithoutH("HTTP://" + rest);
    NoSchemeWithoutH("HTTPS://" + rest);
    NoSchemeWithoutH(" " + rest);
    NoSchemeWithoutH(" " + Http + rest);
  }

  /** The two concrete cases the page is built around: a bare host gets
      `https://`, a URL with `http://` is kept as typed. */
  lemma NormalizeExamples()
    ensures Normalize("example.com") == "https://example.com"
    ensures Normalize("http://example.com") == "http://example.com"
  {
    NoSchemeWithoutH("example.com");
    assert Https + "example.com" == "https://example.com";
    assert Http <= "http://example.com";
  }

  /** The display strip removes one scheme, not every repeated one. */
  lemma StripSchemeOnce(rest: string)
    ensures StripScheme(Http + rest) == rest
    ensures StripScheme(Https + rest) == rest
    ensures StripScheme(Https + Http + rest) == Http + rest
  {
    SchemesExclusive(Http + rest);
    assert Http <= Http + rest;
    assert Https <= Https + rest;
    assert Https + Http + rest == Https + (Http + rest);
  }

  /** A stored (normalised) URL displays exactly as the text the user typed
      would have displayed: normalisation adds only what the strip removes. */
  lemma DisplayIgnoresNormalize(u: string)
    ensures StripScheme(Normalize(u)) == StripScheme(u)
  {
  }

  /** For a URL typed without a scheme, the display shows the input exactly. */
  lemma DisplayOfNormalized(u: string)
    requires !HasScheme(u)
    ensures StripScheme(Normalize(u)) == u
  {
  }
}
